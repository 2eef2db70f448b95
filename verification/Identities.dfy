/** Whose name a session and its transcript entries carry. */
module Identities {
  import opened Basics
  import opened Transcripts
  import opened Protocol
  import opened Queue
  import opened Tickets
  import opened OneEntry

  /** This identity consumed this challenge, no later than t. */
  ghost predicate UsedBy(uses: seq<Use>, c: string, who: Identity, t: Time) {
    exists i :: 0 <= i < |uses| && uses[i].challenge == c && uses[i].who == who && uses[i].at <= t
  }

  /** The session carries the identity that consumed the challenge it entered with. */
  ghost predicate NamedSession(w: World, s: Session) {
    && s.id in w.log.entered
    && UsedBy(w.log.uses, w.log.entered[s.id], s.who, s.joined)
    && s.joined <= w.now
  }

  /** Joins under way, sessions, captured uploads and receipts carry the identity that
      consumed the challenge; no join outlives its process.  */
  ghost predicate Named(w: World) {
    && (w.lobby.None? ==> w.joins == map[])
    && (forall r :: r in w.joins ==> UsedBy(w.log.uses, w.joins[r].challenge, w.joins[r].who, w.now))
    && (w.lobby.Some? ==> forall s :: s in w.log.joined ==> NamedSession(w, s))
    && (forall r :: r in w.uploads ==> NamedSession(w, w.uploads[r].session))
    && (forall a :: a in w.log.acks ==> NamedSession(w, a.session))
  }

  lemma UsesLonger(uses: seq<Use>, uses': seq<Use>, c: string, who: Identity, t: Time, t': Time)
    requires uses <= uses' && UsedBy(uses, c, who, t) && t <= t'
    ensures UsedBy(uses', c, who, t')
  {
    var i :| 0 <= i < |uses| && uses[i].challenge == c && uses[i].who == who && uses[i].at <= t;
    assert uses'[i] == uses[i];
  }

  /** What a step can only add to: uses, entered sessions, and time. */
  ghost predicate Onward(w: World, w': World) {
    && w.log.uses <= w'.log.uses && w.now <= w'.now
    && forall id :: id in w.log.entered ==> id in w'.log.entered && w'.log.entered[id] == w.log.entered[id]
  }

  lemma OnwardNext(cfg: Config, w: World, e: Event)
    requires Ticketed(w) && Enabled(w, e)
    ensures Onward(w, Next(cfg, w, e))
  {
    if !e.IssueChallenge? && !e.JoinBegin? && !e.JoinEnd? {
      OthersKeepTickets(cfg, w, e);
    }
  }

  lemma NamedLater(w: World, w': World, s: Session)
    requires Onward(w, w') && NamedSession(w, s)
    ensures NamedSession(w', s)
  {
    UsesLonger(w.log.uses, w'.log.uses, w.log.entered[s.id], s.who, s.joined, s.joined);
  }

  /** Nobody new joined, captured an upload or got a receipt, but from among the joined. */
  ghost predicate NobodyNew(w: World, w': World) {
    && (w'.lobby.None? ==> w'.joins == map[])
    && (forall r :: r in w'.joins ==> r in w.joins && w'.joins[r] == w.joins[r])
    && (w'.lobby.Some? ==> forall s :: s in w'.log.joined ==> w.lobby.Some? && s in w.log.joined)
    && (forall r :: r in w'.uploads ==>
          (w.lobby.Some? && w'.uploads[r].session in w.log.joined) || (r in w.uploads && w'.uploads[r] == w.uploads[r]))
    && (forall a :: a in w'.log.acks ==>
          a in w.log.acks || exists r :: r in w.uploads && w.uploads[r].session == a.session)
  }

  lemma NamedFrame(w: World, w': World)
    requires Named(w) && Onward(w, w') && NobodyNew(w, w')
    ensures Named(w')
  {
    forall r | r in w'.joins ensures UsedBy(w'.log.uses, w'.joins[r].challenge, w'.joins[r].who, w'.now) {
      UsesLonger(w.log.uses, w'.log.uses, w.joins[r].challenge, w.joins[r].who, w.now, w'.now);
    }
    forall s | w'.lobby.Some? && s in w'.log.joined ensures NamedSession(w', s) {
      NamedLater(w, w', s);
    }
    forall r | r in w'.uploads ensures NamedSession(w', w'.uploads[r].session) {
      NamedLater(w, w', w'.uploads[r].session);
    }
    forall a | a in w'.log.acks ensures NamedSession(w', a.session) {
      NamedLater(w, w', a.session);
    }
  }

  lemma NamedBegin(w: World, r: nat, c: string, who: Identity)
    requires Named(w) && w.lobby.Some? && r !in w.joins && Onward(w, BeginJoin(w, r, c, who))
    ensures Named(BeginJoin(w, r, c, who))
  {
    var w' := BeginJoin(w, r, c, who);
    if w.lobby.Some? && w.lobby.value.Admits(c, w.now) {
      NewUse(w.log.uses, Use(c, w.now, w.lobby.value.chals[c], who));
      NobodyNewButJoin(w, w', r);
    }
  }

  lemma NewUse(uses: seq<Use>, u: Use)
    ensures UsedBy(uses + [u], u.challenge, u.who, u.at)
  {
    assert (uses + [u])[|uses|] == u;
  }

  /** Besides a join r of a named identity, nobody is new. */
  lemma NobodyNewButJoin(w: World, w': World, r: nat)
    requires Named(w) && Onward(w, w') && w'.lobby.Some? && r in w'.joins
    requires NobodyNew(w, w'.(joins := w'.joins - {r}))
    requires UsedBy(w'.log.uses, w'.joins[r].challenge, w'.joins[r].who, w'.now)
    ensures Named(w')
  {
    var w0 := w'.(joins := w'.joins - {r});
    NamedFrame(w, w0);
    forall s | NamedSession(w0, s) ensures NamedSession(w', s) {
    }
    forall q | q in w'.joins ensures UsedBy(w'.log.uses, w'.joins[q].challenge, w'.joins[q].who, w'.now) {
      if q != r {
        assert q in w0.joins && w0.joins[q] == w'.joins[q];
      }
    }
  }

  lemma NamedEnd(cfg: Config, w: World, r: nat, id: string)
    requires Named(w) && Enabled(w, JoinEnd(r, id)) && Onward(w, EndJoin(cfg, w, r, id))
    ensures Named(EndJoin(cfg, w, r, id))
  {
    var w', s := EndJoin(cfg, w, r, id), Session(id, w.joins[r].who, w.now);
    UsesLonger(w.log.uses, w'.log.uses, w.joins[r].challenge, w.joins[r].who, w.now, w.now);
    NobodyNewButSession(w, w', s);
  }

  /** Besides a named session s that joined, nobody is new. */
  lemma NobodyNewButSession(w: World, w': World, s: Session)
    requires Named(w) && Onward(w, w') && w.lobby.Some? && w'.lobby.Some? && NamedSession(w', s)
    requires w'.log.joined == w.log.joined + [s]
    requires NobodyNew(w, w'.(log := w'.log.(joined := w.log.joined)))
    ensures Named(w')
  {
    var w0 := w'.(log := w'.log.(joined := w.log.joined));
    NamedFrame(w, w0);
    forall t | NamedSession(w0, t) ensures NamedSession(w', t) {
    }
  }

  lemma OthersKeepNames(cfg: Config, w: World, e: Event)
    requires InLine(w) && Named(w) && Enabled(w, e) && !e.JoinBegin? && !e.JoinEnd?
    ensures NobodyNew(w, Next(cfg, w, e))
  {
    if e.UploadEnd? {
      AcksFromUploads(cfg, w, e.req, e.io);
    } else if e.UploadBegin? && w.lobby.value.active.Some? {
      HolderJoined(w);
    }
  }

  lemma AcksFromUploads(cfg: Config, w: World, r: nat, io: CommitIo)
    requires w.lobby.Some? && r in w.uploads
    ensures NobodyNew(w, EndUpload(cfg, w, r, io))
  {
  }

  lemma NamedNext(cfg: Config, w: World, e: Event)
    requires InLine(w) && Ticketed(w) && Named(w) && Enabled(w, e)
    ensures Named(Next(cfg, w, e))
  {
    OnwardNext(cfg, w, e);
    if e.JoinBegin? {
      NamedBegin(w, e.req, e.challenge, e.who);
    } else if e.JoinEnd? {
      NamedEnd(cfg, w, e.req, e.id);
    } else {
      OthersKeepNames(cfg, w, e);
      NamedFrame(w, Next(cfg, w, e));
    }
  }

  /** In every run, through crashes and restarts, whoever is in the lobby, holds the slot,
      uploads or has a receipt carries the identity that consumed the challenge with which
      the session entered.  */
  lemma {:induction false} AlwaysNamed(cfg: Config, w: World, es: seq<Event>)
    requires InLine(w) && Ticketed(w) && Named(w) && Legal(cfg, w, es)
    ensures InLine(Run(cfg, w, es)) && Ticketed(Run(cfg, w, es)) && Named(Run(cfg, w, es))
    decreases |es|
  {
    var n := |es| - 1;
    if es != [] {
      AlwaysNamed(cfg, w, es[..n]);
      InLineNext(cfg, Run(cfg, w, es[..n]), es[n]);
      TicketedNext(cfg, Run(cfg, w, es[..n]), es[n]);
      NamedNext(cfg, Run(cfg, w, es[..n]), es[n]);
    }
  }

  /** Event k is the start of a join with this challenge by this identity, and the join
      consumed the challenge.  */
  ghost predicate BegunAt(cfg: Config, w: World, es: seq<Event>, k: nat, c: string, who: Identity)
    requires Legal(cfg, w, es)
  {
    && k < |es| && es[k].JoinBegin? && es[k].challenge == c && es[k].who == who
    && |Before(cfg, w, es, k + 1).log.uses| == |Before(cfg, w, es, k).log.uses| + 1
  }

  /** The provider accepted this identity in the join that consumed the challenge. */
  ghost predicate Authenticated(cfg: Config, w: World, es: seq<Event>, c: string, who: Identity)
    requires Legal(cfg, w, es)
  {
    exists k: nat :: BegunAt(cfg, w, es, k, c, who)
  }

  lemma UseOfEvent(cfg: Config, w: World, e: Event)
    requires Enabled(w, e)
    ensures var uses, uses' := w.log.uses, Next(cfg, w, e).log.uses;
            uses' != uses ==>
              && e.JoinBegin? && |uses'| == |uses| + 1 && uses == uses'[..|uses|]
              && uses'[|uses|].challenge == e.challenge && uses'[|uses|].who == e.who
  {
    if !e.IssueChallenge? && !e.JoinBegin? && !e.JoinEnd? {
      OthersKeepTickets(cfg, w, e);
    }
  }

  lemma LastBegun(cfg: Config, w: World, es: seq<Event>, n: nat, i: nat)
    requires Legal(cfg, w, es) && |es| == n + 1
    requires |Run(cfg, w, es[..n]).log.uses| <= i < |Run(cfg, w, es).log.uses|
    ensures var u := Run(cfg, w, es).log.uses[i]; BegunAt(cfg, w, es, n, u.challenge, u.who)
  {
    UseOfEvent(cfg, Run(cfg, w, es[..n]), es[n]);
    assert es[..n + 1] == es;
  }

  lemma EarlierBegun(cfg: Config, w: World, es: seq<Event>, n: nat, c: string, who: Identity)
    requires Legal(cfg, w, es) && n <= |es| && Legal(cfg, w, es[..n]) && Authenticated(cfg, w, es[..n], c, who)
    ensures Authenticated(cfg, w, es, c, who)
  {
    var k: nat :| BegunAt(cfg, w, es[..n], k, c, who);
    BeforeInPrefix(cfg, w, es, n, k);
    BeforeInPrefix(cfg, w, es, n, k + 1);
    assert es[..n][k] == es[k];
    assert BegunAt(cfg, w, es, k, c, who);
  }

  lemma {:induction false} UsesAreJoins(cfg: Config, w: World, es: seq<Event>, i: nat)
    requires Legal(cfg, w, es) && |w.log.uses| <= i < |Run(cfg, w, es).log.uses|
    ensures var u := Run(cfg, w, es).log.uses[i]; Authenticated(cfg, w, es, u.challenge, u.who)
    decreases |es|
  {
    var n, u := |es| - 1, Run(cfg, w, es).log.uses[i];
    var v := Run(cfg, w, es[..n]);
    UseOfEvent(cfg, v, es[n]);
    if i < |v.log.uses| {
      UsesAreJoins(cfg, w, es[..n], i);
      EarlierBegun(cfg, w, es, n, u.challenge, u.who);
    } else {
      LastBegun(cfg, w, es, n, i);
    }
  }

  lemma UsedIsAuthenticated(cfg: Config, w: World, es: seq<Event>, c: string, who: Identity, t: Time)
    requires Legal(cfg, w, es) && w.log.uses == [] && UsedBy(Run(cfg, w, es).log.uses, c, who, t)
    ensures Authenticated(cfg, w, es, c, who)
  {
    var uses := Run(cfg, w, es).log.uses;
    var i :| 0 <= i < |uses| && uses[i].challenge == c && uses[i].who == who && uses[i].at <= t;
    UsesAreJoins(cfg, w, es, i);
  }

  /** The session has a challenge, and carries the identity that was authenticated in the
      join that consumed it.  */
  ghost predicate CarriesIdentity(cfg: Config, w: World, es: seq<Event>, id: string, who: Identity)
    requires Legal(cfg, w, es)
  {
    var entered := Run(cfg, w, es).log.entered;
    id in entered && Authenticated(cfg, w, es, entered[id], who)
  }

  lemma BlankIsNamed(w: World)
    requires Blank(w)
    ensures InLine(w) && Ticketed(w) && Named(w)
  {
  }

  lemma NamedCarries(cfg: Config, w: World, es: seq<Event>, s: Session)
    requires Legal(cfg, w, es) && w.log.uses == [] && NamedSession(Run(cfg, w, es), s)
    ensures CarriesIdentity(cfg, w, es, s.id, s.who)
  {
    var w' := Run(cfg, w, es);
    UsedIsAuthenticated(cfg, w, es, w'.log.entered[s.id], s.who, s.joined);
  }

  /** In every run from an empty directory, whoever waits, holds the slot, uploads or has a
      receipt carries the identity that the provider accepted in the join that consumed
      the challenge of the session.  */
  lemma SessionsAreAuthenticated(cfg: Config, w: World, es: seq<Event>)
    requires Blank(w) && Legal(cfg, w, es)
    ensures var w' := Run(cfg, w, es);
            && (w'.lobby.Some? ==>
                  forall s :: s in w'.log.joined || Some(s) == w'.lobby.value.active || s in w'.lobby.value.queue ==>
                    CarriesIdentity(cfg, w, es, s.id, s.who))
            && (forall r :: r in w'.uploads ==>
                  CarriesIdentity(cfg, w, es, w'.uploads[r].session.id, w'.uploads[r].session.who))
            && (forall a :: a in w'.log.acks ==> CarriesIdentity(cfg, w, es, a.session.id, a.session.who))
  {
    BlankIsNamed(w);
    AlwaysNamed(cfg, w, es);
    var w' := Run(cfg, w, es);
    if w'.lobby.Some? {
      InLobbyJoined(w');
      forall s | s in w'.log.joined ensures CarriesIdentity(cfg, w, es, s.id, s.who) {
        NamedCarries(cfg, w, es, s);
      }
    }
    forall r | r in w'.uploads
      ensures CarriesIdentity(cfg, w, es, w'.uploads[r].session.id, w'.uploads[r].session.who)
    {
      NamedCarries(cfg, w, es, w'.uploads[r].session);
    }
    forall a | a in w'.log.acks ensures CarriesIdentity(cfg, w, es, a.session.id, a.session.who) {
      NamedCarries(cfg, w, es, a.session);
    }
  }

  lemma InLobbyJoined(w: World)
    requires InLine(w) && w.lobby.Some?
    ensures forall s :: Some(s) == w.lobby.value.active || s in w.lobby.value.queue ==> s in w.log.joined
  {
    if w.lobby.value.active.Some? {
      HolderJoined(w);
    }
  }

  // ---- entries ----

  /** Event k is the commit that made this contribution: the entry names its session's
      identity, the two hashes, and the time of the commit.  */
  ghost predicate MadeAt(cfg: Config, w: World, es: seq<Event>, k: nat, c: Contribution)
    requires Legal(cfg, w, es)
  {
    && k < |es| && es[k].UploadEnd?
    && var v := Before(cfg, w, es, k);
    && es[k].req in v.uploads
    && var up := v.uploads[es[k].req];
    && c.id == up.session.id && c.entry.who == up.session.who && c.entry.time == v.now
    && c.entry.prevSha == cfg.be.Sha(up.prevHead) && c.entry.newSha == cfg.be.Sha(up.next)
  }

  lemma ContributionMade(cfg: Config, w: World, es: seq<Event>, c: Contribution) returns (k: nat)
    requires Legal(cfg, w, es) && c in Contributed(cfg, w, es)
    ensures MadeAt(cfg, w, es, k, c)
  {
    k := ContributedAt(cfg, w, es, c);
  }

  lemma EnteredLater(cfg: Config, w: World, es: seq<Event>, k: nat, id: string)
    requires InLine(w) && Ticketed(w) && Legal(cfg, w, es) && k <= |es|
    requires id in Before(cfg, w, es, k).log.entered
    ensures id in Run(cfg, w, es).log.entered
    ensures Run(cfg, w, es).log.entered[id] == Before(cfg, w, es, k).log.entered[id]
    decreases |es|
  {
    var n := |es| - 1;
    if k <= n {
      BeforeInPrefix(cfg, w, es, n, k);
      EnteredLater(cfg, w, es[..n], k, id);
      ChallengesUsedOnce(cfg, w, es[..n]);
      OnwardNext(cfg, Run(cfg, w, es[..n]), es[n]);
    } else {
      assert es[..k] == es;
    }
  }

  /** The identity in the entry of a contribution is the one authenticated for its session. */
  lemma ContributionIsAuthenticated(cfg: Config, w: World, es: seq<Event>, c: Contribution)
    requires Blank(w) && Legal(cfg, w, es) && c in Contributed(cfg, w, es)
    ensures CarriesIdentity(cfg, w, es, c.id, c.entry.who)
  {
    var k := ContributionMade(cfg, w, es, c);
    BlankIsNamed(w);
    PrefixLegal(cfg, w, es, k);
    AlwaysNamed(cfg, w, es[..k]);
    var s := Before(cfg, w, es, k).uploads[es[k].req].session;
    NamedCarries(cfg, w, es[..k], s);
    EnteredLater(cfg, w, es, k, s.id);
    EarlierBegun(cfg, w, es, k, Before(cfg, w, es, k).log.entered[s.id], s.who);
  }

  /** Each entry belongs to a contribution of a session that carries its identity. */
  ghost predicate EntriesAuthenticated(cfg: Config, w: World, es: seq<Event>, entries: seq<Entry>)
    requires Legal(cfg, w, es)
  {
    forall i :: 0 <= i < |entries| ==> EntryAuthenticated(cfg, w, es, entries[i])
  }

  ghost predicate EntryAuthenticated(cfg: Config, w: World, es: seq<Event>, e: Entry)
    requires Legal(cfg, w, es)
  {
    exists c: Contribution, k: nat ::
      MadeAt(cfg, w, es, k, c) && c.entry == e && CarriesIdentity(cfg, w, es, c.id, e.who)
  }

  lemma DrawnAuthenticated(cfg: Config, w: World, es: seq<Event>, entries: seq<Entry>, at: seq<nat>)
    requires Blank(w) && Legal(cfg, w, es) && DrawnFrom(entries, Contributed(cfg, w, es), at)
    ensures EntriesAuthenticated(cfg, w, es, entries)
  {
    var made := Contributed(cfg, w, es);
    forall i | 0 <= i < |entries| ensures EntryAuthenticated(cfg, w, es, entries[i]) {
      var c := made[at[i]];
      var k := ContributionMade(cfg, w, es, c);
      ContributionIsAuthenticated(cfg, w, es, c);
    }
  }

  /** In every run from an empty directory, whatever fails, crashes and restarts, every
      entry of the live and of the durable transcript names the identity that the provider
      accepted in the join of its contributing session, the hashes of that session's upload
      and the time of its commit.  */
  lemma EntriesAreAuthenticated(cfg: Config, w: World, es: seq<Event>)
    requires Blank(w) && Legal(cfg, w, es)
    ensures var w' := Run(cfg, w, es);
            && (w'.lobby.Some? ==> EntriesAuthenticated(cfg, w, es, w'.lobby.value.doc.entries))
            && (w'.disk.doc.Some? ==> EntriesAuthenticated(cfg, w, es, w'.disk.doc.value.entries))
  {
    var live, durable := AlwaysDrawn(cfg, w, es);
    var w' := Run(cfg, w, es);
    if w'.lobby.Some? {
      DrawnAuthenticated(cfg, w, es, w'.lobby.value.doc.entries, live);
    }
    if w'.disk.doc.Some? {
      DrawnAuthenticated(cfg, w, es, w'.disk.doc.value.entries, durable);
    }
  }
}
