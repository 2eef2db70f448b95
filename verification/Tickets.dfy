/** Join challenges are used at most once. */
module Tickets {
  import opened Transcripts
  import opened Protocol
  import opened Queue

  /** The challenges consumed so far. */
  ghost function Spent(uses: seq<Use>): set<string> {
    set i | 0 <= i < |uses| :: uses[i].challenge
  }

  /** Every use is of a distinct issued challenge that had not expired. */
  ghost predicate UsesFair(log: Log) {
    && (forall i :: 0 <= i < |log.uses| ==>
          var u := log.uses[i];
          u.challenge in log.issued && u.expiry == log.issued[u.challenge] && u.at <= u.expiry)
    && (forall i, j :: 0 <= i < j < |log.uses| ==> log.uses[i].challenge != log.uses[j].challenge)
  }

  /** A challenge on offer is issued and unused. */
  ghost predicate OffersUnused(w: World) {
    w.lobby.Some? ==>
      forall c :: c in w.lobby.value.chals ==>
        c in w.log.issued && w.lobby.value.chals[c] == w.log.issued[c] && c !in Spent(w.log.uses)
  }

  /** Every pending join and every session owns a use of its own. */
  ghost predicate Owned(w: World) {
    && (forall r :: r in w.joins ==> w.joins[r].challenge in Spent(w.log.uses))
    && (forall r, q :: r in w.joins && q in w.joins && r != q ==> w.joins[r].challenge != w.joins[q].challenge)
    && w.log.entered.Keys == w.log.tokens
    && (forall id :: id in w.log.entered ==> w.log.entered[id] in Spent(w.log.uses))
    && (forall id, r :: id in w.log.entered && r in w.joins ==> w.log.entered[id] != w.joins[r].challenge)
    && (forall id, id' :: id in w.log.entered && id' in w.log.entered && id != id' ==>
          w.log.entered[id] != w.log.entered[id'])
  }

  ghost predicate Ticketed(w: World) {
    UsesFair(w.log) && OffersUnused(w) && Owned(w)
  }

  /** Only these parts of a world matter here. */
  ghost predicate SameTickets(w: World, w': World) {
    && w'.log.uses == w.log.uses && w'.log.issued == w.log.issued
    && w'.log.entered == w.log.entered && w'.log.tokens == w.log.tokens
    && (forall r :: r in w'.joins ==> r in w.joins && w'.joins[r] == w.joins[r])
    && (w'.lobby.Some? ==>
          w'.lobby.value.chals == map[] || (w.lobby.Some? && w'.lobby.value.chals == w.lobby.value.chals))
  }

  lemma TicketedFrame(w: World, w': World)
    requires Ticketed(w) && SameTickets(w, w')
    ensures Ticketed(w')
  {
  }

  lemma TicketedIssue(cfg: Config, w: World, c: string)
    requires Ticketed(w) && Enabled(w, IssueChallenge(c))
    ensures Ticketed(Next(cfg, w, IssueChallenge(c)))
  {
  }

  lemma TicketedBegin(w: World, r: nat, c: string, who: Identity)
    requires Ticketed(w) && w.lobby.Some? && r !in w.joins
    ensures Ticketed(BeginJoin(w, r, c, who))
  {
    if w.lobby.value.Admits(c, w.now) {
      UseAdded(w, BeginJoin(w, r, c, who), r, Use(c, w.now, w.lobby.value.chals[c], who));
    }
  }

  /** A use of a challenge on offer, recorded with the pending join that made it. */
  lemma UseAdded(w: World, w': World, r: nat, u: Use)
    requires Ticketed(w) && w.lobby.Some? && w'.lobby.Some? && r !in w.joins
    requires u.challenge in w.lobby.value.chals && u.expiry == w.lobby.value.chals[u.challenge] && u.at <= u.expiry
    requires w'.lobby.value.chals == w.lobby.value.chals - {u.challenge}
    requires w'.log == w.log.(uses := w.log.uses + [u])
    requires r in w'.joins && w'.joins == w.joins[r := w'.joins[r]] && w'.joins[r].challenge == u.challenge
    ensures Ticketed(w')
  {
    SpentGrows(w.log.uses, u);
    forall i | 0 <= i < |w.log.uses| ensures w.log.uses[i].challenge != u.challenge {
      assert w.log.uses[i].challenge in Spent(w.log.uses);
    }
  }

  lemma SpentGrows(uses: seq<Use>, u: Use)
    ensures Spent(uses + [u]) == Spent(uses) + {u.challenge}
  {
    var uses' := uses + [u];
    assert uses'[|uses|] == u;
    assert forall i :: 0 <= i < |uses| ==> uses'[i] == uses[i];
  }

  lemma TicketedEnd(cfg: Config, w: World, r: nat, id: string)
    requires Ticketed(w) && Enabled(w, JoinEnd(r, id))
    ensures Ticketed(EndJoin(cfg, w, r, id))
  {
    TicketHandedOn(w, EndJoin(cfg, w, r, id), r, id);
  }

  /** A pending join hands its challenge to the session it enqueues. */
  lemma TicketHandedOn(w: World, w': World, r: nat, id: string)
    requires Ticketed(w) && r in w.joins && id !in w.log.tokens
    requires w.lobby.Some? && w'.lobby.Some? && w'.lobby.value.chals == w.lobby.value.chals
    requires w'.joins == w.joins - {r} && w'.log.uses == w.log.uses && w'.log.issued == w.log.issued
    requires w'.log.tokens == w.log.tokens + {id} && w'.log.entered == w.log.entered[id := w.joins[r].challenge]
    ensures Ticketed(w')
  {
  }

  lemma UploadKeepsTickets(cfg: Config, w: World, r: nat, io: CommitIo)
    requires w.lobby.Some? && r in w.uploads
    ensures SameTickets(w, EndUpload(cfg, w, r, io))
  {
    var freed := CommitSlot(cfg, w.lobby.value, w.disk, w.uploads[r], w.now, io);
  }

  lemma OthersKeepTickets(cfg: Config, w: World, e: Event)
    requires Enabled(w, e) && !e.IssueChallenge? && !e.JoinBegin? && !e.JoinEnd?
    ensures SameTickets(w, Next(cfg, w, e))
  {
    match e
    case UploadEnd(r, io) => UploadKeepsTickets(cfg, w, r, io);
    case _ =>
  }

  lemma TicketedNext(cfg: Config, w: World, e: Event)
    requires Ticketed(w) && Enabled(w, e)
    ensures Ticketed(Next(cfg, w, e))
  {
    match e
    case IssueChallenge(c) => TicketedIssue(cfg, w, c);
    case JoinBegin(r, c, who) => TicketedBegin(w, r, c, who);
    case JoinEnd(r, id) => TicketedEnd(cfg, w, r, id);
    case _ =>
      OthersKeepTickets(cfg, w, e);
      TicketedFrame(w, Next(cfg, w, e));
  }

  /** In every run, through crashes and restarts: no challenge is consumed twice, each
      was issued and unexpired when consumed, and sessions that entered the lobby map
      one to one to consumed challenges.  */
  lemma {:induction false} ChallengesUsedOnce(cfg: Config, w: World, es: seq<Event>)
    requires Ticketed(w) && Legal(cfg, w, es)
    ensures Ticketed(Run(cfg, w, es))
    decreases |es|
  {
    var n := |es| - 1;
    if es != [] {
      ChallengesUsedOnce(cfg, w, es[..n]);
      TicketedNext(cfg, Run(cfg, w, es[..n]), es[n]);
    }
  }

  lemma OthersKeepOffers(cfg: Config, w: World, e: Event)
    requires Enabled(w, e) && !e.IssueChallenge? && !e.JoinBegin?
    requires w.lobby.Some? && Next(cfg, w, e).lobby.Some?
    ensures Next(cfg, w, e).lobby.value.chals == w.lobby.value.chals
  {
    if e.UploadEnd? {
      var freed := CommitSlot(cfg, w.lobby.value, w.disk, w.uploads[e.req], w.now, e.io);
    }
  }

  lemma OfferNext(cfg: Config, w: World, e: Event, c: string)
    requires Enabled(w, e) && w.lobby.Some? && Next(cfg, w, e).lobby.Some?
    requires c in w.lobby.value.chals && c in w.log.issued
    ensures var w' := Next(cfg, w, e);
            || (c in w'.lobby.value.chals && w'.lobby.value.chals[c] == w.lobby.value.chals[c])
            || c in Spent(w'.log.uses)
            || w'.now > w.lobby.value.chals[c]
  {
    if e.JoinBegin? {
      if w.lobby.value.Admits(e.challenge, w.now) {
        SpentGrows(w.log.uses, Use(e.challenge, w.now, w.lobby.value.chals[e.challenge], e.who));
      }
    } else if !e.IssueChallenge? {
      OthersKeepOffers(cfg, w, e);
    }
  }

  lemma UsesGrow(cfg: Config, w: World, e: Event)
    requires Enabled(w, e)
    ensures Spent(w.log.uses) <= Spent(Next(cfg, w, e).log.uses) && w.now <= Next(cfg, w, e).now
  {
    if e.JoinBegin? && w.lobby.value.Admits(e.challenge, w.now) {
      SpentGrows(w.log.uses, Use(e.challenge, w.now, w.lobby.value.chals[e.challenge], e.who));
    }
  }

  /** A challenge stays on offer until it is used or expires: pruning takes no other. */
  lemma {:induction false} OfferLasts(cfg: Config, w: World, es: seq<Event>, c: string)
    requires Ticketed(w) && Legal(cfg, w, es) && Alive(cfg, w, es) && w.lobby.Some? && c in w.lobby.value.chals
    ensures var w', expiry := Run(cfg, w, es), w.lobby.value.chals[c];
            || (c in w'.lobby.value.chals && w'.lobby.value.chals[c] == expiry)
            || c in Spent(w'.log.uses)
            || w'.now > expiry
    decreases |es|
  {
    var n := |es| - 1;
    if es != [] {
      var v := Run(cfg, w, es[..n]);
      OfferLasts(cfg, w, es[..n], c);
      ChallengesUsedOnce(cfg, w, es[..n]);
      UsesGrow(cfg, v, es[n]);
      if c in v.lobby.value.chals && v.lobby.value.chals[c] == w.lobby.value.chals[c] {
        OfferNext(cfg, v, es[n], c);
      }
    }
  }
}
