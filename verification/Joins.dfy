/** Who gets into the lobby: joins after Close, and how long a challenge is good. */
module Joins {
  import opened Basics
  import opened Transcripts
  import opened Protocol
  import opened Queue
  import opened Tickets

  // ---- Close ----

  /** Since w no challenge was consumed and no join begun, and each session that joined
      had its join under way.  */
  ghost predicate NoJoinsSince(w: World, w': World) {
    && w'.log.uses == w.log.uses
    && (forall r :: r in w'.joins ==> r in w.joins && w'.joins[r] == w.joins[r])
    && |w.log.joined| <= |w'.log.joined|
    && |w'.log.joined| + |w'.joins| <= |w.log.joined| + |w.joins|
  }

  lemma OneLess<T>(m: map<nat, T>, r: nat)
    requires r in m
    ensures |m - {r}| == |m| - 1
  {
    assert (m - {r}).Keys == m.Keys - {r};
  }

  lemma NoMore<T>(m: map<nat, T>, m': map<nat, T>)
    requires m'.Keys <= m.Keys
    ensures |m'| <= |m|
  {
    assert m.Keys == m'.Keys + (m.Keys - m'.Keys);
  }

  lemma JoinedKept(cfg: Config, w: World, e: Event)
    requires InLine(w) && Enabled(w, e) && w.lobby.Some? && Next(cfg, w, e).lobby.Some? && !e.JoinEnd?
    ensures Next(cfg, w, e).log.joined == w.log.joined
  {
    if e.UploadEnd? {
      InLineUpload(cfg, w, e.req, e.io);
    } else if e.Tick? {
      InLineTick(cfg, w);
    } else {
      OthersKeepLine(cfg, w, e);
    }
  }

  lemma ClosedJoinEnds(cfg: Config, w: World, r: nat, id: string)
    requires Enabled(w, JoinEnd(r, id))
    ensures NoJoinsSince(w, Next(cfg, w, JoinEnd(r, id)))
  {
    OneLess(w.joins, r);
  }

  lemma ClosedNext(cfg: Config, w: World, e: Event)
    requires InLine(w) && Enabled(w, e) && w.lobby.Some? && w.lobby.value.closed && Next(cfg, w, e).lobby.Some?
    ensures NoJoinsSince(w, Next(cfg, w, e))
  {
    if e.JoinEnd? {
      ClosedJoinEnds(cfg, w, e.req, e.id);
    } else if !e.JoinBegin? && !e.IssueChallenge? {
      JoinedKept(cfg, w, e);
      OthersKeepTickets(cfg, w, e);
      NoMore(w.joins, Next(cfg, w, e).joins);
    }
  }

  lemma {:induction false} ClosedRun(cfg: Config, w: World, es: seq<Event>)
    requires InLine(w) && Legal(cfg, w, es) && Alive(cfg, w, es) && w.lobby.Some? && w.lobby.value.closed
    ensures NoJoinsSince(w, Run(cfg, w, es))
    decreases |es|
  {
    var n := |es| - 1;
    if es != [] {
      ClosedRun(cfg, w, es[..n]);
      LaterRun(cfg, w, es[..n]);
      ClosedNext(cfg, Run(cfg, w, es[..n]), es[n]);
    }
  }

  /** From the event Close on, in every run of the process: no challenge is consumed, no
      join is begun, only joins that were between their sections are still enqueued, nobody
      is admitted, and at most one more receipt is given, to the session in the slot.  */
  lemma ClosingStopsJoins(cfg: Config, w: World, es: seq<Event>)
    requires InLine(w) && Enabled(w, Close)
    requires Legal(cfg, Next(cfg, w, Close), es) && Alive(cfg, Next(cfg, w, Close), es)
    ensures var w' := Run(cfg, Next(cfg, w, Close), es);
            && w'.lobby.value.closed
            && w'.log.uses == w.log.uses && w'.joins.Keys <= w.joins.Keys
            && |w.log.joined| <= |w'.log.joined| <= |w.log.joined| + |w.joins|
            && w'.log.admitted == w.log.admitted
            && |w'.log.acks| <= |w.log.acks| + Held(w)
            && (forall j :: |w.log.acks| <= j < |w'.log.acks| ==> w.lobby.value.Holds(w'.log.acks[j].session.id))
  {
    var w1 := Next(cfg, w, Close);
    InLineNext(cfg, w, Close);
    OthersKeepLine(cfg, w, Close);
    assert w1.lobby.Some? && w1.lobby.value.closed;
    LaterRun(cfg, w1, es);
    ClosedRun(cfg, w1, es);
    AfterClose(cfg, w1, es);
  }

  // ---- how long a challenge is good ----

  lemma {:induction false} IssuedKept(cfg: Config, w: World, es: seq<Event>, c: string)
    requires Legal(cfg, w, es) && c in w.log.issued
    ensures c in Run(cfg, w, es).log.issued && Run(cfg, w, es).log.issued[c] == w.log.issued[c]
    decreases |es|
  {
    var n := |es| - 1;
    if es != [] {
      IssuedKept(cfg, w, es[..n], c);
      IssuedNext(cfg, Run(cfg, w, es[..n]), es[n], c);
    }
  }

  lemma IssuedNext(cfg: Config, w: World, e: Event, c: string)
    requires Enabled(w, e) && c in w.log.issued
    ensures c in Next(cfg, w, e).log.issued && Next(cfg, w, e).log.issued[c] == w.log.issued[c]
  {
    if !e.IssueChallenge? && !e.JoinBegin? && !e.JoinEnd? {
      OthersKeepTickets(cfg, w, e);
    }
  }

  /** The join was begun with this challenge by this identity: the use is recorded, and
      besides the challenge being gone nothing else has changed.  */
  ghost predicate Accepts(w: World, w': World, r: nat, c: string, who: Identity, expiry: Time) {
    && w.lobby.Some?
    && w'.log.uses == w.log.uses + [Use(c, w.now, expiry, who)]
    && w'.joins == w.joins[r := Pending(c, who)]
    && w' == w.(lobby := Some(w.lobby.value.(chals := w.lobby.value.chals - {c})), joins := w'.joins,
                log := w.log.(uses := w'.log.uses))
  }

  /** A challenge issued at time t is accepted by its process, while that is open, until it
      is used or t + challengeTTL has passed, and not after; a join that is not accepted
      changes nothing.  */
  lemma ChallengeGoodUntil(cfg: Config, w: World, c: string, es: seq<Event>, r: nat, who: Identity)
    requires Ticketed(w) && Enabled(w, IssueChallenge(c))
    requires Legal(cfg, Next(cfg, w, IssueChallenge(c)), es) && Alive(cfg, Next(cfg, w, IssueChallenge(c)), es)
    requires Enabled(Run(cfg, Next(cfg, w, IssueChallenge(c)), es), JoinBegin(r, c, who))
    ensures var w' := Run(cfg, Next(cfg, w, IssueChallenge(c)), es);
            var w'', expiry := Next(cfg, w', JoinBegin(r, c, who)), w.now + cfg.challengeTTL;
            if !w'.lobby.value.closed && c !in Spent(w'.log.uses) && w'.now <= expiry then
              Accepts(w', w'', r, c, who, expiry)
            else w'' == w'
  {
    var w1 := Next(cfg, w, IssueChallenge(c));
    TicketedNext(cfg, w, IssueChallenge(c));
    OfferLasts(cfg, w1, es, c);
    ChallengesUsedOnce(cfg, w1, es);
    IssuedKept(cfg, w1, es, c);
  }

  /** A process offers no challenge that an earlier process issued. */
  ghost predicate Stale(w: World, c: string) {
    c in w.log.issued && (w.lobby.Some? ==> c !in w.lobby.value.chals)
  }

  lemma StaleNext(cfg: Config, w: World, e: Event, c: string)
    requires Enabled(w, e) && Stale(w, c)
    ensures Stale(Next(cfg, w, e), c)
  {
    if !e.IssueChallenge? && !e.JoinBegin? && !e.JoinEnd? {
      OthersKeepTickets(cfg, w, e);
    }
  }

  lemma {:induction false} OldChallengesRefused(cfg: Config, w: World, es: seq<Event>, c: string, r: nat, who: Identity)
    requires w.lobby.None? && c in w.log.issued && Legal(cfg, w, es)
    requires Enabled(Run(cfg, w, es), JoinBegin(r, c, who))
    ensures Next(cfg, Run(cfg, w, es), JoinBegin(r, c, who)) == Run(cfg, w, es)
  {
    AlwaysStale(cfg, w, es, c);
  }

  lemma {:induction false} AlwaysStale(cfg: Config, w: World, es: seq<Event>, c: string)
    requires Stale(w, c) && Legal(cfg, w, es)
    ensures Stale(Run(cfg, w, es), c)
    decreases |es|
  {
    var n := |es| - 1;
    if es != [] {
      AlwaysStale(cfg, w, es[..n], c);
      StaleNext(cfg, Run(cfg, w, es[..n]), es[n], c);
    }
  }

  /** Issuing a challenge prunes the expired ones: all that are then on offer are good. */
  lemma IssuingPrunes(cfg: Config, w: World, c: string)
    requires Enabled(w, IssueChallenge(c)) && cfg.Valid()
    ensures var chals := Next(cfg, w, IssueChallenge(c)).lobby.value.chals;
            c in chals && forall k :: k in chals ==> w.now <= chals[k]
  {
  }

  // ---- a request ends once ----

  /** The challenge is spent, and neither a join under way nor a session has it. */
  ghost predicate Forfeit(w: World, c: string) {
    && c in Spent(w.log.uses)
    && (forall r :: r in w.joins ==> w.joins[r].challenge != c)
    && (forall id :: id in w.log.entered ==> w.log.entered[id] != c)
  }

  lemma ForfeitNext(cfg: Config, w: World, e: Event, c: string)
    requires Ticketed(w) && Enabled(w, e) && Forfeit(w, c)
    ensures Forfeit(Next(cfg, w, e), c)
  {
    UsesGrow(cfg, w, e);
    if !e.IssueChallenge? && !e.JoinBegin? && !e.JoinEnd? {
      OthersKeepTickets(cfg, w, e);
    }
  }

  lemma {:induction false} AlwaysForfeit(cfg: Config, w: World, es: seq<Event>, c: string)
    requires Ticketed(w) && Legal(cfg, w, es) && Forfeit(w, c)
    ensures Forfeit(Run(cfg, w, es), c)
    decreases |es|
  {
    var n := |es| - 1;
    if es != [] {
      AlwaysForfeit(cfg, w, es[..n], c);
      ChallengesUsedOnce(cfg, w, es[..n]);
      ForfeitNext(cfg, Run(cfg, w, es[..n]), es[n], c);
    }
  }

  /** A join whose authentication fails, or that a death cuts off, has lost its challenge:
      in no later run does any session enter with it.  */
  lemma LostJoinNeverEnters(cfg: Config, w: World, r: nat, e: Event, es: seq<Event>)
    requires Ticketed(w) && Enabled(w, e) && r in w.joins && (e == JoinReject(r) || e == Crash)
    requires Legal(cfg, Next(cfg, w, e), es)
    ensures var entered := Run(cfg, Next(cfg, w, e), es).log.entered;
            forall id :: id in entered ==> entered[id] != w.joins[r].challenge
  {
    TicketedNext(cfg, w, e);
    AlwaysForfeit(cfg, Next(cfg, w, e), es, w.joins[r].challenge);
  }

  /** The event ends request r, join or upload. */
  predicate Ends(e: Event, r: nat, upload: bool) {
    if upload then (e.UploadEnd? || e.UploadDrop?) && e.req == r else (e.JoinEnd? || e.JoinReject?) && e.req == r
  }

  predicate Begins(e: Event, r: nat, upload: bool) {
    if upload then e.UploadBegin? && e.req == r else e.JoinBegin? && e.req == r
  }

  predicate UnderWay(w: World, r: nat, upload: bool) {
    if upload then r in w.uploads else r in w.joins
  }

  lemma EndedNext(cfg: Config, w: World, e: Event, r: nat, upload: bool)
    requires Enabled(w, e)
    ensures Ends(e, r, upload) ==> UnderWay(w, r, upload) && !UnderWay(Next(cfg, w, e), r, upload)
    ensures !UnderWay(w, r, upload) && !Begins(e, r, upload) ==> !UnderWay(Next(cfg, w, e), r, upload)
  {
  }

  /** A request that has ended cannot end again, in any run that does not begin it anew. */
  lemma {:induction false} RequestsEndOnce(cfg: Config, w: World, e: Event, es: seq<Event>, r: nat, upload: bool)
    requires Enabled(w, e) && Ends(e, r, upload) && Legal(cfg, Next(cfg, w, e), es)
    requires forall i :: 0 <= i < |es| ==> !Begins(es[i], r, upload)
    ensures !UnderWay(Run(cfg, Next(cfg, w, e), es), r, upload)
    ensures forall i :: 0 <= i < |es| ==> !Ends(es[i], r, upload)
    decreases |es|
  {
    var n, w1 := |es| - 1, Next(cfg, w, e);
    EndedNext(cfg, w, e, r, upload);
    if es != [] {
      RequestsEndOnce(cfg, w, e, es[..n], r, upload);
      EndedNext(cfg, Run(cfg, w1, es[..n]), es[n], r, upload);
      assert forall i :: 0 <= i < n ==> es[..n][i] == es[i];
    }
  }
}
