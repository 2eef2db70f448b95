/** Deadlines, heartbeats and how long a queue takes. */
module Timing {
  import opened Basics
  import opened Storage
  import opened Protocol
  import opened Queue
  import Average

  /** The deadline is one slot timeout after the latest promotion, heartbeat or
      capture, and the expiry loop has not yet seen it pass.  */
  ghost predicate Timed(cfg: Config, w: World) {
    w.lobby.Some? ==>
      && w.log.ticked <= w.now
      && (w.lobby.value.active.Some? ==>
            && w.lobby.value.activeSince.Some?
            && w.lobby.value.activeSince.value <= w.log.refreshed <= w.now
            && w.lobby.value.deadline == w.log.refreshed + cfg.slotTimeout
            && w.log.ticked <= w.lobby.value.deadline)
  }

  // ---- what a step can do to the slot ----

  ghost predicate Quiet(w: World, w': World)
    requires w.lobby.Some? && w'.lobby.Some?
  {
    && w'.lobby.value.active == w.lobby.value.active
    && w'.lobby.value.activeSince == w.lobby.value.activeSince
    && w'.lobby.value.deadline == w.lobby.value.deadline
    && w'.log.refreshed == w.log.refreshed && w'.log.refreshes == w.log.refreshes
    && w'.log.departed == w.log.departed
  }

  ghost predicate Extended(cfg: Config, w: World, w': World)
    requires w.lobby.Some? && w'.lobby.Some?
  {
    && w'.lobby.value.active == w.lobby.value.active
    && w'.lobby.value.activeSince == w.lobby.value.activeSince
    && w'.lobby.value.deadline == w.now + cfg.slotTimeout
    && w'.log.refreshed == w.now && w'.log.refreshes == w.log.refreshes + 1
    && w'.log.departed == w.log.departed
  }

  ghost predicate HandedOver(cfg: Config, w: World, w': World)
    requires w.lobby.Some? && w'.lobby.Some?
  {
    && w'.log.departed == w.log.departed + Held(w)
    && (w'.lobby.value.active.Some? ==>
          && w'.lobby.value.activeSince == Some(w.now)
          && w'.lobby.value.deadline == w.now + cfg.slotTimeout
          && w'.log.refreshed == w.now && w'.log.refreshes == 0)
  }

  /** A step leaves the slot alone, extends it, or hands it over. Of these only a
      receipt and an expiry hand over a slot that is held.  */
  ghost predicate SlotMove(cfg: Config, w: World, e: Event, w': World)
    requires w.lobby.Some? && w'.lobby.Some?
  {
    && (Quiet(w, w') || Extended(cfg, w, w') || HandedOver(cfg, w, w'))
    && w.now <= w'.now && (!e.Advance? ==> w'.now == w.now)
    && w'.log.ticked == (if e.Tick? then w.now else w.log.ticked)
    && (e.Advance? ==> Quiet(w, w'))
    && (e.Tick? && Quiet(w, w') && Held(w) == 1 ==> w.now <= w.lobby.value.deadline)
    && (w.lobby.value.active.Some? && w'.lobby.value.active != w.lobby.value.active ==>
          || (e.Tick? && w.now > w.lobby.value.deadline)
          || (|w'.log.acks| == |w.log.acks| + 1
              && w'.log.acks[|w.log.acks|].session.id == w.lobby.value.active.value.id))
  }

  lemma SlotUpload(cfg: Config, w: World, r: nat, io: CommitIo)
    requires InLine(w) && w.lobby.Some? && r in w.uploads && EndUpload(cfg, w, r, io).lobby.Some?
    ensures SlotMove(cfg, w, UploadEnd(r, io), EndUpload(cfg, w, r, io))
  {
    var o := UploadOutcome(cfg, w, r, io);
    InLineUpload(cfg, w, r, io);
    var freed := CommitSlot(cfg, w.lobby.value, w.disk, w.uploads[r], w.now, io);
    if o.reply.Accepted? {
      var w1 := w.(disk := o.disk, uploads := w.uploads - {r}, log := w.log.(samples := Sampled(w, o.lobby.value)));
      ReleaseHandsOver(cfg, w1, freed);
    }
  }

  lemma SlotTick(cfg: Config, w: World)
    requires InLine(w) && w.lobby.Some?
    ensures SlotMove(cfg, w, Tick, Next(cfg, w, Tick))
  {
    if w.lobby.value.active.Some? && w.now > w.lobby.value.deadline {
      ReleaseHandsOver(cfg, w, w.lobby.value.(active := None));
    }
  }

  lemma SlotCases(cfg: Config, w: World, e: Event)
    requires InLine(w) && Enabled(w, e) && w.lobby.Some? && Next(cfg, w, e).lobby.Some?
    ensures SlotMove(cfg, w, e, Next(cfg, w, e))
  {
    match e
    case UploadEnd(r, io) => SlotUpload(cfg, w, r, io);
    case Tick => SlotTick(cfg, w);
    case _ =>
  }

  lemma ReleaseHandsOver(cfg: Config, w: World, freed: Lobby)
    requires InLine(w) && w.lobby.Some? && w.lobby.value.active.Some?
    requires freed.active.None? && freed.queue == w.lobby.value.queue && freed.closed == w.lobby.value.closed
    ensures var w' := Moved(w, freed.Promoted(w.now, cfg.slotTimeout));
            HandedOver(cfg, w, w') && w'.lobby.value.active != w.lobby.value.active
  {
    var n := |w.log.admitted|;
    if freed.queue != [] {
      assert w.log.joined[n] == freed.queue[0] && w.log.joined[n - 1] == w.lobby.value.active.value;
    }
  }

  lemma TimedNext(cfg: Config, w: World, e: Event)
    requires InLine(w) && Timed(cfg, w) && Enabled(w, e) && cfg.Valid()
    ensures Timed(cfg, Next(cfg, w, e))
  {
    if w.lobby.Some? && Next(cfg, w, e).lobby.Some? {
      SlotCases(cfg, w, e);
    }
  }

  lemma {:induction false} AlwaysTimed(cfg: Config, w: World, es: seq<Event>)
    requires InLine(w) && Timed(cfg, w) && Legal(cfg, w, es) && cfg.Valid()
    ensures Timed(cfg, Run(cfg, w, es)) && InLine(Run(cfg, w, es))
    decreases |es|
  {
    var n := |es| - 1;
    if es != [] {
      AlwaysTimed(cfg, w, es[..n]);
      InLineNext(cfg, Run(cfg, w, es[..n]), es[n]);
      TimedNext(cfg, Run(cfg, w, es[..n]), es[n]);
    }
  }

  /** The deadline never moves back while one session holds the slot. */
  lemma DeadlineNeverShrinks(cfg: Config, w: World, e: Event)
    requires InLine(w) && Timed(cfg, w) && Enabled(w, e) && cfg.Valid()
    requires w.lobby.Some? && Next(cfg, w, e).lobby.Some?
    requires w.lobby.value.active.Some? && Next(cfg, w, e).lobby.value.active == w.lobby.value.active
    ensures w.lobby.value.deadline <= Next(cfg, w, e).lobby.value.deadline
  {
    SlotCases(cfg, w, e);
  }

  /** The session in the slot acts for itself: its heartbeat, or the start of its upload. */
  predicate ActsOf(e: Event, id: string) {
    (e.Heartbeat? && e.id == id) || (e.UploadBegin? && e.id == id)
  }

  /** While one session holds the slot, its deadline becomes one slot timeout from now when
      it sends a heartbeat or starts an upload, and at no other event: nobody else can
      move it.  */
  lemma OnlyTheHolderExtends(cfg: Config, w: World, e: Event)
    requires InLine(w) && Enabled(w, e) && w.lobby.Some? && Next(cfg, w, e).lobby.Some?
    requires w.lobby.value.active.Some? && Next(cfg, w, e).lobby.value.active == w.lobby.value.active
    ensures Next(cfg, w, e).lobby.value.deadline ==
      if ActsOf(e, w.lobby.value.active.value.id) then w.now + cfg.slotTimeout else w.lobby.value.deadline
  {
    if e.UploadEnd? {
      UploadKeepsDeadline(cfg, w, e.req, e.io);
    } else if e.Tick? {
      if w.now > w.lobby.value.deadline {
        ReleaseHandsOver(cfg, w, w.lobby.value.(active := None));
      }
    }
  }

  lemma UploadKeepsDeadline(cfg: Config, w: World, r: nat, io: CommitIo)
    requires InLine(w) && w.lobby.Some? && r in w.uploads && EndUpload(cfg, w, r, io).lobby.Some?
    requires w.lobby.value.active.Some? && EndUpload(cfg, w, r, io).lobby.value.active == w.lobby.value.active
    ensures EndUpload(cfg, w, r, io).lobby.value.deadline == w.lobby.value.deadline
  {
    InLineUpload(cfg, w, r, io);
    var freed := CommitSlot(cfg, w.lobby.value, w.disk, w.uploads[r], w.now, io);
    if UploadOutcome(cfg, w, r, io).reply.Accepted? {
      ReleaseHandsOver(cfg, w, freed);
    }
  }

  // ---- heartbeats keep the slot ----

  /** At no point of the run has the holder `id` gone without refresh for longer than
      the slot timeout.  */
  ghost predicate KeepsBeating(cfg: Config, w: World, es: seq<Event>, id: string)
    requires Legal(cfg, w, es)
    decreases |es|
  {
    var w' := Run(cfg, w, es);
    && (w'.lobby.Some? && w'.lobby.value.Holds(id) ==> w'.now <= w'.log.refreshed + cfg.slotTimeout)
    && (es != [] ==> KeepsBeating(cfg, w, es[..|es| - 1], id))
  }

  /** A session that keeps beating is never expired: it still holds the slot or it has
      been given a receipt.  */
  lemma {:induction false} HeartbeatKeepsSlot(cfg: Config, w: World, es: seq<Event>, id: string)
    requires InLine(w) && Timed(cfg, w) && cfg.Valid() && Legal(cfg, w, es) && Alive(cfg, w, es)
    requires w.lobby.Some? && w.lobby.value.Holds(id) && KeepsBeating(cfg, w, es, id)
    ensures var w' := Run(cfg, w, es);
            w'.lobby.value.Holds(id) || exists j :: |w.log.acks| <= j < |w'.log.acks| && w'.log.acks[j].session.id == id
    decreases |es|
  {
    var n := |es| - 1;
    if es != [] {
      var v := Run(cfg, w, es[..n]);
      HeartbeatKeepsSlot(cfg, w, es[..n], id);
      AlwaysTimed(cfg, w, es[..n]);
      LaterRun(cfg, w, es[..n]);
      LaterNext(cfg, v, es[n]);
      SlotCases(cfg, v, es[n]);
      var w' := Run(cfg, w, es);
      if v.lobby.value.Holds(id) {
        if !w'.lobby.value.Holds(id) {
          assert w'.log.acks[|v.log.acks|].session.id == id;
        }
      } else {
        var j :| |w.log.acks| <= j < |v.log.acks| && v.log.acks[j].session.id == id;
        assert w'.log.acks[j].session.id == id;
      }
    }
  }

  // ---- bounded waiting ----

  /** Ticks of the expiry loop come at most d apart. */
  predicate Punctual(d: Time, w: World, e: Event) {
    e.Advance? && w.lobby.Some? ==> e.to <= w.log.ticked + d
  }

  function Tenure(cfg: Config, d: Time, refreshes: nat): Time {
    (refreshes + 1) * (cfg.slotTimeout + d)
  }

  /** The slot will be freed within the tenure its refreshes so far allow. */
  ghost predicate Bounded(cfg: Config, d: Time, w: World) {
    w.lobby.Some? ==>
      && w.now <= w.log.ticked + d
      && (w.lobby.value.active.Some? ==>
            && w.lobby.value.activeSince.Some?
            && w.lobby.value.deadline + d <= w.lobby.value.activeSince.value + Tenure(cfg, d, w.log.refreshes))
  }

  lemma BoundedNext(cfg: Config, d: Time, w: World, e: Event)
    requires InLine(w) && Timed(cfg, w) && Bounded(cfg, d, w) && Enabled(w, e) && Punctual(d, w, e)
    requires cfg.Valid() && d >= 0
    ensures Bounded(cfg, d, Next(cfg, w, e))
  {
    var w' := Next(cfg, w, e);
    if w.lobby.Some? && w'.lobby.Some? {
      SlotCases(cfg, w, e);
      TenureGrows(cfg, d, w.log.refreshes);
      assert Tenure(cfg, d, 0) == cfg.slotTimeout + d;
    }
  }

  lemma TenureGrows(cfg: Config, d: Time, k: nat)
    ensures Tenure(cfg, d, k + 1) == Tenure(cfg, d, k) + cfg.slotTimeout + d
  {
  }

  lemma {:induction false} TenureMonotone(cfg: Config, d: Time, k: nat, r: nat)
    requires k <= r && cfg.Valid() && d >= 0
    ensures Tenure(cfg, d, k) <= Tenure(cfg, d, r)
  {
    if k < r {
      TenureMonotone(cfg, d, k, r - 1);
      TenureGrows(cfg, d, r - 1);
    }
  }

  /** In every state of the run the lobby is open, the clock keeps up with the ticks,
      and the holder has refreshed at most r times.  */
  ghost predicate Brisk(cfg: Config, d: Time, r: nat, w: World, es: seq<Event>)
    requires Legal(cfg, w, es)
    decreases |es|
  {
    var n, w' := |es| - 1, Run(cfg, w, es);
    && w'.lobby.Some? && !w'.lobby.value.closed && w'.log.refreshes <= r
    && (es != [] ==> Brisk(cfg, d, r, w, es[..n]) && Punctual(d, Run(cfg, w, es[..n]), es[n]))
  }

  lemma {:induction false} BriskIsAlive(cfg: Config, d: Time, r: nat, w: World, es: seq<Event>)
    requires Legal(cfg, w, es) && Brisk(cfg, d, r, w, es)
    ensures Alive(cfg, w, es)
    decreases |es|
  {
    if es != [] {
      BriskIsAlive(cfg, d, r, w, es[..|es| - 1]);
    }
  }

  ghost predicate PunctualRun(cfg: Config, d: Time, w: World, es: seq<Event>)
    requires Legal(cfg, w, es)
    decreases |es|
  {
    var n := |es| - 1;
    es != [] ==> PunctualRun(cfg, d, w, es[..n]) && Punctual(d, Run(cfg, w, es[..n]), es[n])
  }

  lemma {:induction false} BriskIsPunctual(cfg: Config, d: Time, r: nat, w: World, es: seq<Event>)
    requires Legal(cfg, w, es) && Brisk(cfg, d, r, w, es)
    ensures PunctualRun(cfg, d, w, es)
    decreases |es|
  {
    if es != [] {
      BriskIsPunctual(cfg, d, r, w, es[..|es| - 1]);
    }
  }

  /** With punctual ticks every tenure is bounded by its refreshes, in every run. */
  lemma {:induction false} AlwaysBounded(cfg: Config, d: Time, w: World, es: seq<Event>)
    requires InLine(w) && Timed(cfg, w) && Bounded(cfg, d, w) && cfg.Valid() && d >= 0
    requires Legal(cfg, w, es) && PunctualRun(cfg, d, w, es)
    ensures Bounded(cfg, d, Run(cfg, w, es)) && WithinTenure(cfg, d, Run(cfg, w, es))
    decreases |es|
  {
    var n := |es| - 1;
    if es != [] {
      AlwaysBounded(cfg, d, w, es[..n]);
      AlwaysTimed(cfg, w, es[..n]);
      BoundedNext(cfg, d, Run(cfg, w, es[..n]), es[n]);
    }
    AlwaysTimed(cfg, w, es);
    NowWithinTenure(cfg, d, Run(cfg, w, es));
  }

  /** The holder has had the slot for no longer than its refreshes so far allow. */
  ghost predicate WithinTenure(cfg: Config, d: Time, w: World) {
    w.lobby.Some? && w.lobby.value.active.Some? ==>
      && w.lobby.value.activeSince.Some?
      && w.now <= w.lobby.value.activeSince.value + Tenure(cfg, d, w.log.refreshes)
  }

  lemma NowWithinTenure(cfg: Config, d: Time, w: World)
    requires Timed(cfg, w) && Bounded(cfg, d, w)
    ensures WithinTenure(cfg, d, w)
  {
  }

  /** The slot is held, since at most k tenures of length b after t, and for no longer
      than b.  */
  ghost predicate HeldAfter(w: World, t: Time, k: int, b: Time) {
    && w.lobby.Some? && w.lobby.value.active.Some? && w.lobby.value.activeSince.Some?
    && w.lobby.value.activeSince.value <= t + k * b
    && w.now <= w.lobby.value.activeSince.value + b
  }

  lemma NowWithinLimit(cfg: Config, d: Time, r: nat, w: World)
    requires Timed(cfg, w) && Bounded(cfg, d, w) && cfg.Valid() && d >= 0
    requires w.lobby.Some? && Held(w) == 1 && w.log.refreshes <= r
    ensures w.now <= w.lobby.value.activeSince.value + Tenure(cfg, d, r)
  {
    NowWithinTenure(cfg, d, w);
    TenureMonotone(cfg, d, w.log.refreshes, r);
  }

  lemma HandOverStep(cfg: Config, v: World, e: Event, t: Time, departed: nat, b: Time)
    requires InLine(v) && Enabled(v, e) && HeldAfter(v, t, v.log.departed - departed, b)
    requires Next(cfg, v, e).lobby.Some? && Held(Next(cfg, v, e)) == 1
    ensures var w' := Next(cfg, v, e);
            && w'.lobby.value.activeSince.Some?
            && w'.lobby.value.activeSince.value <= t + (w'.log.departed - departed) * b
  {
    var k := v.log.departed - departed;
    SlotCases(cfg, v, e);
    assert (k + 1) * b == k * b + b;
    assert k + 1 == v.log.departed + 1 - departed;
  }

  /** What a brisk run keeps, in one place. */
  lemma BriskFacts(cfg: Config, d: Time, r: nat, w: World, es: seq<Event>)
    requires InLine(w) && Timed(cfg, w) && Bounded(cfg, d, w) && cfg.Valid() && d >= 0
    requires Legal(cfg, w, es) && Brisk(cfg, d, r, w, es) && w.lobby.Some?
    ensures var w' := Run(cfg, w, es);
            && InLine(w') && Timed(cfg, w') && Bounded(cfg, d, w')
            && w'.lobby.Some? && !w'.lobby.value.closed && w'.log.refreshes <= r && Later(w, w')
  {
    BriskIsAlive(cfg, d, r, w, es);
    LaterRun(cfg, w, es);
    AlwaysTimed(cfg, w, es);
    BriskIsPunctual(cfg, d, r, w, es);
    AlwaysBounded(cfg, d, w, es);
  }

  /** Unless the i-th joiner has departed, the slot has been handed over in time. */
  ghost predicate OnSchedule(w: World, i: nat, t: Time, departed: nat, b: Time) {
    w.log.departed <= i ==> HeldAfter(w, t, w.log.departed - departed, b)
  }

  lemma DepartedGrows(cfg: Config, v: World, e: Event)
    requires InLine(v) && Enabled(v, e) && v.lobby.Some? && Next(cfg, v, e).lobby.Some?
    ensures v.log.departed <= Next(cfg, v, e).log.departed
  {
    LaterNext(cfg, v, e);
  }

  lemma HandOverBound(cfg: Config, v: World, e: Event, i: nat, t: Time, departed: nat, b: Time)
    requires InLine(v) && v.lobby.Some? && Enabled(v, e) && OnSchedule(v, i, t, departed, b)
    requires Next(cfg, v, e).lobby.Some? && Held(Next(cfg, v, e)) == 1 && Next(cfg, v, e).log.departed <= i
    ensures var w' := Next(cfg, v, e);
            && w'.lobby.value.activeSince.Some?
            && w'.lobby.value.activeSince.value <= t + (w'.log.departed - departed) * b
  {
    DepartedGrows(cfg, v, e);
    HandOverStep(cfg, v, e, t, departed, b);
  }

  lemma OnScheduleNext(cfg: Config, d: Time, r: nat, v: World, e: Event, w': World, i: nat, t: Time,
                       departed: nat, b: Time)
    requires InLine(v) && v.lobby.Some? && Enabled(v, e) && w' == Next(cfg, v, e) && OnSchedule(v, i, t, departed, b)
    requires InLine(w') && Timed(cfg, w') && Bounded(cfg, d, w') && cfg.Valid() && d >= 0 && b == Tenure(cfg, d, r)
    requires w'.lobby.Some? && !w'.lobby.value.closed && w'.log.refreshes <= r && i < |w'.log.joined|
    ensures OnSchedule(w', i, t, departed, b)
  {
    if w'.log.departed <= i {
      OpenHolds(w', i);
      HandOverBound(cfg, v, e, i, t, departed, b);
      NowWithinLimit(cfg, d, r, w');
    }
  }

  lemma OnScheduleNow(cfg: Config, d: Time, r: nat, w: World, i: nat, b: Time)
    requires InLine(w) && Timed(cfg, w) && Bounded(cfg, d, w) && cfg.Valid() && d >= 0 && b == Tenure(cfg, d, r)
    requires w.lobby.Some? && !w.lobby.value.closed && w.log.refreshes <= r && i < |w.log.joined|
    ensures OnSchedule(w, i, w.now, w.log.departed, b)
  {
    if w.log.departed <= i {
      OpenHolds(w, i);
      NowWithinLimit(cfg, d, r, w);
    }
  }

  /** Until the i-th joiner departs, the k-th hand-over since w came by k tenures. */
  lemma {:induction false} HandOversInTime(cfg: Config, d: Time, r: nat, w: World, es: seq<Event>, i: nat, b: Time)
    requires InLine(w) && Timed(cfg, w) && Bounded(cfg, d, w) && cfg.Valid() && d >= 0 && b == Tenure(cfg, d, r)
    requires Legal(cfg, w, es) && Brisk(cfg, d, r, w, es) && w.lobby.Some? && i < |w.log.joined|
    ensures OnSchedule(Run(cfg, w, es), i, w.now, w.log.departed, b)
    decreases |es|
  {
    var n := |es| - 1;
    BriskFacts(cfg, d, r, w, es);
    if es == [] {
      OnScheduleNow(cfg, d, r, w, i, b);
    } else {
      BriskFacts(cfg, d, r, w, es[..n]);
      HandOversInTime(cfg, d, r, w, es[..n], i, b);
      OnScheduleNext(cfg, d, r, Run(cfg, w, es[..n]), es[n], Run(cfg, w, es), i, w.now, w.log.departed, b);
    }
  }

  lemma HeldInTime(cfg: Config, d: Time, r: nat, w: World, es: seq<Event>, id: string)
    requires InLine(w) && Timed(cfg, w) && Bounded(cfg, d, w) && cfg.Valid() && d >= 0
    requires Legal(cfg, w, es) && Brisk(cfg, d, r, w, es) && w.lobby.Some? && !w.lobby.value.closed
    requires Position(w.lobby.value, id) >= 0
    ensures var w' := Run(cfg, w, es);
            var k := w'.log.departed - w.log.departed;
            k <= Position(w.lobby.value, id) ==> HeldAfter(w', w.now, k, Tenure(cfg, d, r))
  {
    var i := JoinIndex(w, id);
    PositionCountsDepartures(w, i);
    OpenHolds(w, i);
    if Run(cfg, w, es).log.departed <= i {
      HandOversInTime(cfg, d, r, w, es, i, Tenure(cfg, d, r));
    }
  }

  /** Bounded waiting: with ticks at most d apart and at most r refreshes a session,
      whoever reads position p holds the slot by p * (r+1) * (slotTimeout + d) later:
      while it still waits that time is not over, and if it holds the slot it got it
      in that time.  */
  lemma BoundedWaiting(cfg: Config, d: Time, r: nat, w: World, es: seq<Event>, id: string)
    requires InLine(w) && Timed(cfg, w) && Bounded(cfg, d, w) && cfg.Valid() && d >= 0
    requires Legal(cfg, w, es) && Brisk(cfg, d, r, w, es) && w.lobby.Some? && !w.lobby.value.closed
    requires Position(w.lobby.value, id) >= 1
    ensures var p, w' := Position(w.lobby.value, id), Run(cfg, w, es);
            var limit := w.now + p * ((r + 1) * (cfg.slotTimeout + d));
            && (Position(w'.lobby.value, id) >= 1 ==> w'.now <= limit)
            && (w'.lobby.value.Holds(id) ==>
                  w'.lobby.value.activeSince.Some? && w'.lobby.value.activeSince.value <= limit)
            && (w'.now > limit ==> w'.log.departed - w.log.departed >= p)
  {
    BriskIsAlive(cfg, d, r, w, es);
    PositionIsExact(cfg, w, es, id);
    HeldInTime(cfg, d, r, w, es, id);
    WithinLimit(cfg, d, r, w, Run(cfg, w, es), Position(w.lobby.value, id));
  }

  lemma WithinLimit(cfg: Config, d: Time, r: nat, w: World, w': World, p: nat)
    requires cfg.Valid() && d >= 0 && w.log.departed <= w'.log.departed
    requires var k, b := w'.log.departed - w.log.departed, Tenure(cfg, d, r);
             k <= p ==> HeldAfter(w', w.now, k, b)
    ensures var k, limit := w'.log.departed - w.log.departed, w.now + p * ((r + 1) * (cfg.slotTimeout + d));
            k <= p ==> w'.lobby.value.activeSince.value <= limit && (k < p ==> w'.now <= limit)
  {
    var k, b := w'.log.departed - w.log.departed, Tenure(cfg, d, r);
    TenureMonotone(cfg, d, 0, r);
    if k < p {
      MulMonotone(k + 1, p, b);
      assert k * b + b == (k + 1) * b;
    }
  }

  lemma MulMonotone(a: int, b: int, c: int)
    requires a <= b && 0 <= c
    ensures a * c <= b * c
  {
    assert (b - a) * c >= 0;
  }

  // ---- the rolling average of a process ----

  /** The average is the rolling one of the times from slot-open to append so far, none
      of which is negative.  */
  ghost predicate Averaged(w: World) {
    w.lobby.Some? ==>
      && w.lobby.value.avgContrib == Average.Rolling(w.log.samples)
      && forall i :: 0 <= i < |w.log.samples| ==> 0 <= w.log.samples[i]
  }

  lemma OthersKeepAverage(cfg: Config, w: World, e: Event)
    requires Enabled(w, e) && !e.UploadEnd? && !e.StartUp? && Next(cfg, w, e).lobby.Some?
    ensures w.lobby.Some? && Next(cfg, w, e).lobby.value.avgContrib == w.lobby.value.avgContrib
    ensures Next(cfg, w, e).log.samples == w.log.samples
  {
  }

  lemma PersistAverage(cfg: Config, lobby: Lobby, disk: Disk, receipt: Receipt, now: Time, io: CommitIo)
    ensures var after := Persist(cfg, lobby, disk, receipt, now, io).lobby;
            after.Some? ==> after.value.avgContrib == lobby.avgContrib && after.value.doc == lobby.doc
  {
  }

  lemma CommitAverage(cfg: Config, lobby: Lobby, disk: Disk, up: Upload, now: Time, io: CommitIo)
    ensures var after := Commit(cfg, lobby, disk, up, now, io).lobby;
            after.Some? ==>
              if after.value.doc == lobby.doc then after.value.avgContrib == lobby.avgContrib
              else
                && lobby.active.Some?
                && (lobby.activeSince.Some? ==>
                      after.value.avgContrib == Average.Update(lobby.avgContrib, now - lobby.activeSince.value))
  {
    var entry := NewEntry(cfg.be, lobby, up, now);
    match lobby.doc.Append(entry)
    case None =>
    case Some(doc) =>
      assert doc.entries != lobby.doc.entries;
      PersistAverage(cfg, lobby.Advanced(doc, up.next, now), SaveBlob(disk, entry.blobRef, up.next, io.blob),
                     ReceiptFor(cfg.be, lobby, up), now, io);
  }

  lemma SampleUpload(cfg: Config, w: World, r: nat, io: CommitIo)
    requires w.lobby.Some? && r in w.uploads && EndUpload(cfg, w, r, io).lobby.Some?
    ensures EndUpload(cfg, w, r, io).lobby == UploadOutcome(cfg, w, r, io).lobby
    ensures EndUpload(cfg, w, r, io).log.samples == Sampled(w, EndUpload(cfg, w, r, io).lobby.value)
  {
  }

  lemma SampleAdded(cfg: Config, w: World, w': World)
    requires Timed(cfg, w) && Averaged(w) && w.lobby.Some? && w'.lobby.Some?
    requires w'.log.samples == Sampled(w, w'.lobby.value)
    requires if w'.lobby.value.doc == w.lobby.value.doc then w'.lobby.value.avgContrib == w.lobby.value.avgContrib
             else
               && w.lobby.value.active.Some?
               && (w.lobby.value.activeSince.Some? ==>
                     w'.lobby.value.avgContrib
                       == Average.Update(w.lobby.value.avgContrib, w.now - w.lobby.value.activeSince.value))
    ensures Averaged(w')
  {
    if w'.lobby.value.doc != w.lobby.value.doc {
      assert w'.log.samples[..|w.log.samples|] == w.log.samples;
    }
  }

  lemma AverageUpload(cfg: Config, w: World, r: nat, io: CommitIo)
    requires Timed(cfg, w) && Averaged(w) && w.lobby.Some? && r in w.uploads && EndUpload(cfg, w, r, io).lobby.Some?
    ensures Averaged(EndUpload(cfg, w, r, io))
  {
    CommitAverage(cfg, w.lobby.value, w.disk, w.uploads[r], w.now, io);
    SampleUpload(cfg, w, r, io);
    SampleAdded(cfg, w, EndUpload(cfg, w, r, io));
  }

  lemma AveragedNext(cfg: Config, w: World, e: Event)
    requires Timed(cfg, w) && Averaged(w) && Enabled(w, e)
    ensures Averaged(Next(cfg, w, e))
  {
    if Next(cfg, w, e).lobby.Some? {
      if e.UploadEnd? {
        AverageUpload(cfg, w, e.req, e.io);
      } else if !e.StartUp? {
        OthersKeepAverage(cfg, w, e);
      }
    }
  }

  /** In every run the reported average is the rolling average of the running process's
      contribution times.  */
  lemma {:induction false} AlwaysAveraged(cfg: Config, w: World, es: seq<Event>)
    requires InLine(w) && Timed(cfg, w) && Averaged(w) && Legal(cfg, w, es) && cfg.Valid()
    ensures Averaged(Run(cfg, w, es))
    decreases |es|
  {
    var n := |es| - 1;
    if es != [] {
      AlwaysAveraged(cfg, w, es[..n]);
      AlwaysTimed(cfg, w, es[..n]);
      AveragedNext(cfg, Run(cfg, w, es[..n]), es[n]);
    }
  }
}
