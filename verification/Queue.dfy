/** The lobby: who waits, who holds the slot, who is next. */
module Queue {
  import opened Basics
  import opened Storage
  import opened Protocol

  ghost predicate DistinctIds(s: seq<Session>) {
    forall i, j :: 0 <= i < j < |s| ==> s[i].id != s[j].id
  }

  function Held(w: World): nat
    requires w.lobby.Some?
  {
    if w.lobby.value.active.Some? then 1 else 0
  }

  /** Everyone who joined was admitted, in order, or still waits, in order; the slot
      holds the last one admitted, or nobody; an open lobby does not leave the slot
      empty while someone waits.  */
  ghost predicate InLine(w: World) {
    && (w.lobby.Some? ==>
          var lobby := w.lobby.value;
          && w.log.joined == w.log.admitted + lobby.queue
          && DistinctIds(w.log.joined)
          && (forall s :: s in w.log.joined ==> s.id in w.log.tokens)
          && |w.log.admitted| == w.log.departed + Held(w)
          && (lobby.active.Some? ==> w.log.admitted[w.log.departed] == lobby.active.value)
          && (!lobby.closed && lobby.queue != [] ==> lobby.active.Some?))
    && (forall r :: r in w.uploads ==> w.lobby.Some? && w.uploads[r].session in w.log.admitted)
    && (forall a :: a in w.log.acks ==> a.session.id in w.log.tokens)
  }

  lemma InLineRelease(w: World, freed: Lobby, timeout: Time)
    requires InLine(w) && w.lobby.Some? && w.lobby.value.active.Some?
    requires freed.active.None? && freed.queue == w.lobby.value.queue && freed.closed == w.lobby.value.closed
    ensures InLine(Moved(w, freed.Promoted(w.now, timeout)))
    ensures var w' := Moved(w, freed.Promoted(w.now, timeout));
            w'.log.departed == w.log.departed + 1 && w.log.admitted <= w'.log.admitted
  {
    var w' := Moved(w, freed.Promoted(w.now, timeout));
    if !freed.closed && freed.queue != [] {
      var n := |w.log.admitted|;
      assert w.log.joined[n] == freed.queue[0];
      assert w.log.joined[n - 1] == w.lobby.value.active.value;
      assert w'.log.admitted + freed.queue[1..] == w.log.admitted + freed.queue;
    }
  }

  lemma InLineJoin(cfg: Config, w: World, r: nat, id: string)
    requires InLine(w) && Enabled(w, JoinEnd(r, id))
    ensures InLine(EndJoin(cfg, w, r, id))
    ensures var w' := EndJoin(cfg, w, r, id);
            w'.log.departed == w.log.departed && w.log.admitted <= w'.log.admitted
  {
    var s, w' := Session(id, w.joins[r].who, w.now), EndJoin(cfg, w, r, id);
    var lobby := w.lobby.value;
    assert w'.log.joined == w.log.admitted + (lobby.queue + [s]);
    if lobby.active.None? && !lobby.closed {
      assert lobby.queue + [s] == [s];
    }
    forall i, j | 0 <= i < j < |w'.log.joined| ensures w'.log.joined[i].id != w'.log.joined[j].id {
      assert w'.log.joined[i] in w.log.joined;
    }
  }

  predicate SameSlot(a: Lobby, b: Lobby) {
    && a.queue == b.queue && a.active == b.active && a.closed == b.closed
    && a.deadline == b.deadline && a.activeSince == b.activeSince && a.chals == b.chals
  }

  /** A commit frees the slot exactly when it gives a receipt. */
  lemma CommitSlot(cfg: Config, lobby: Lobby, disk: Disk, up: Upload, now: Time, io: CommitIo) returns (freed: Lobby)
    ensures var o := Commit(cfg, lobby, disk, up, now, io);
            && (o.reply.Accepted? ==>
                  && lobby.Holds(up.session.id) && freed.active.None?
                  && freed.queue == lobby.queue && freed.closed == lobby.closed && freed.chals == lobby.chals
                  && o.lobby == Some(freed.Promoted(now, cfg.slotTimeout)))
            && (!o.reply.Accepted? && o.lobby.Some? ==> SameSlot(o.lobby.value, lobby))
  {
    freed := lobby.(active := None);
    match lobby.doc.Append(NewEntry(cfg.be, lobby, up, now))
    case None =>
    case Some(doc) => freed := lobby.Advanced(doc, up.next, now).(active := None);
  }

  lemma InLineUpload(cfg: Config, w: World, r: nat, io: CommitIo)
    requires InLine(w) && w.lobby.Some? && r in w.uploads
    ensures InLine(EndUpload(cfg, w, r, io))
    ensures var w', o := EndUpload(cfg, w, r, io), UploadOutcome(cfg, w, r, io);
            var n := |w.log.acks|;
            && (o.reply.Accepted? ==>
                  && w'.log.departed == w.log.departed + 1 && w.log.admitted <= w'.log.admitted
                  && |w'.log.acks| == n + 1 && w'.log.acks[n].session.id == w.lobby.value.active.value.id)
            && (!o.reply.Accepted? && w'.lobby.Some? ==>
                  w'.log == w.log.(samples := w'.log.samples) && SameSlot(w'.lobby.value, w.lobby.value))
  {
    var o := UploadOutcome(cfg, w, r, io);
    var freed := CommitSlot(cfg, w.lobby.value, w.disk, w.uploads[r], w.now, io);
    if o.reply.Accepted? {
      var w1 := w.(disk := o.disk, uploads := w.uploads - {r}, log := w.log.(samples := Sampled(w, o.lobby.value)));
      InLineRelease(w1, freed, cfg.slotTimeout);
      var w2 := Moved(w1, o.lobby.value);
      assert w.uploads[r].session in w.log.joined;
      assert InLine(w2);
    }
  }

  /** Queue, slot and history are as before; an upload captured here is the holder's. */
  ghost predicate SameLine(w: World, w': World) {
    && w.lobby.Some? && w'.lobby.Some?
    && w'.lobby.value.queue == w.lobby.value.queue && w'.lobby.value.active == w.lobby.value.active
    && (w.lobby.value.closed ==> w'.lobby.value.closed)
    && w'.log.joined == w.log.joined && w'.log.admitted == w.log.admitted && w'.log.departed == w.log.departed
    && w'.log.acks == w.log.acks && w'.log.tokens == w.log.tokens
    && (forall r :: r in w'.uploads ==>
          || (r in w.uploads && w'.uploads[r] == w.uploads[r])
          || w.lobby.value.active == Some(w'.uploads[r].session))
  }

  /** Only a finished join, a finished upload and a tick move the line of a process. */
  lemma OthersKeepLine(cfg: Config, w: World, e: Event)
    requires Enabled(w, e) && w.lobby.Some? && Next(cfg, w, e).lobby.Some?
    requires !e.JoinEnd? && !e.UploadEnd? && !e.Tick?
    ensures SameLine(w, Next(cfg, w, e))
  {
  }

  lemma InLineFrame(w: World, w': World)
    requires InLine(w) && SameLine(w, w')
    ensures InLine(w')
  {
  }

  lemma InLineTick(cfg: Config, w: World)
    requires InLine(w) && w.lobby.Some?
    ensures InLine(Next(cfg, w, Tick))
    ensures var w' := Next(cfg, w, Tick);
            && w'.lobby.Some? && w.log.departed <= w'.log.departed <= w.log.departed + 1
            && w.log.admitted <= w'.log.admitted
            && w'.log.joined == w.log.joined && w'.log.acks == w.log.acks
            && (w.lobby.value.closed ==> w'.lobby.value.closed && w'.log.admitted == w.log.admitted)
  {
    if w.lobby.value.active.Some? && w.now > w.lobby.value.deadline {
      InLineRelease(w, w.lobby.value.(active := None), cfg.slotTimeout);
    }
  }

  lemma InLineNext(cfg: Config, w: World, e: Event)
    requires InLine(w) && Enabled(w, e)
    ensures InLine(Next(cfg, w, e))
  {
    if w.lobby.Some? && Next(cfg, w, e).lobby.Some? {
      if e.JoinEnd? {
        InLineJoin(cfg, w, e.req, e.id);
      } else if e.UploadEnd? {
        InLineUpload(cfg, w, e.req, e.io);
      } else if e.Tick? {
        InLineTick(cfg, w);
      } else {
        OthersKeepLine(cfg, w, e);
        InLineFrame(w, Next(cfg, w, e));
      }
    } else {
      InLineEdge(cfg, w, e);
    }
  }

  /** The line when a process starts, ends or is absent. */
  lemma InLineEdge(cfg: Config, w: World, e: Event)
    requires InLine(w) && Enabled(w, e) && (w.lobby.None? || Next(cfg, w, e).lobby.None?)
    ensures InLine(Next(cfg, w, e))
  {
  }

  /** In every run: joined == admitted ++ queue, at most one session holds the slot,
      and an open lobby with a queue has an active slot.  */
  lemma {:induction false} AlwaysInLine(cfg: Config, w: World, es: seq<Event>)
    requires InLine(w) && Legal(cfg, w, es)
    ensures InLine(Run(cfg, w, es))
    decreases |es|
  {
    var n := |es| - 1;
    if es != [] {
      AlwaysInLine(cfg, w, es[..n]);
      InLineNext(cfg, Run(cfg, w, es[..n]), es[n]);
    }
  }

  // ---- positions ----

  lemma {:induction false} PlaceOf(queue: seq<Session>, i: nat)
    requires DistinctIds(queue) && i < |queue|
    ensures Place(queue, queue[i].id) == i + 1
  {
    if i > 0 {
      PlaceOf(queue[1..], i - 1);
    }
  }

  lemma {:induction false} NoPlace(queue: seq<Session>, id: string)
    requires forall i :: 0 <= i < |queue| ==> queue[i].id != id
    ensures Place(queue, id) == -1
  {
    if queue != [] {
      NoPlace(queue[1..], id);
    }
  }

  /** The position reported to the i-th session that joined counts the departures
      still ahead of it; it is -1 once the session itself has departed. (With nobody in
      the slot, which happens to a waiting session only after Close, it is one more.)  */
  lemma PositionCountsDepartures(w: World, i: nat)
    requires InLine(w) && w.lobby.Some? && i < |w.log.joined|
    ensures Position(w.lobby.value, w.log.joined[i].id)
      == if i < w.log.departed then -1 else i - w.log.departed + 1 - Held(w)
  {
    var lobby, id, n := w.lobby.value, w.log.joined[i].id, |w.log.admitted|;
    if i >= n {
      forall j, k | 0 <= j < k < |lobby.queue| ensures lobby.queue[j].id != lobby.queue[k].id {
        assert lobby.queue[j] == w.log.joined[n + j] && lobby.queue[k] == w.log.joined[n + k];
      }
      assert lobby.queue[i - n] == w.log.joined[i];
      PlaceOf(lobby.queue, i - n);
    } else {
      forall k | 0 <= k < |lobby.queue| ensures lobby.queue[k].id != id {
        assert lobby.queue[k] == w.log.joined[n + k];
      }
      NoPlace(lobby.queue, id);
    }
    if lobby.active.Some? {
      HolderJoined(w);
    }
  }

  /** The holder is the joiner after all who departed. */
  lemma HolderJoined(w: World)
    requires InLine(w) && w.lobby.Some? && w.lobby.value.active.Some?
    ensures w.log.departed < |w.log.joined| && w.log.joined[w.log.departed] == w.lobby.value.active.value
  {
    assert w.log.joined[w.log.departed] == w.log.admitted[w.log.departed];
  }

  // ---- runs of one process ----

  /** The process that runs at the start runs to the end. */
  ghost predicate Alive(cfg: Config, w: World, es: seq<Event>)
    requires Legal(cfg, w, es)
    decreases |es|
  {
    Run(cfg, w, es).lobby.Some? && (es != [] ==> Alive(cfg, w, es[..|es| - 1]))
  }

  /** What one process can only do in one direction. */
  ghost predicate Later(w: World, w': World)
    requires w.lobby.Some? && w'.lobby.Some?
  {
    && w.log.joined <= w'.log.joined && w.log.admitted <= w'.log.admitted
    && w.log.departed <= w'.log.departed
    && w.log.acks <= w'.log.acks
    && |w'.log.acks| - |w.log.acks| <= w'.log.departed - w.log.departed
    && (w.lobby.value.closed ==> w'.lobby.value.closed && w'.log.admitted == w.log.admitted)
    && (w.lobby.value.closed ==>
          forall j :: |w.log.acks| <= j < |w'.log.acks| ==> w.lobby.value.Holds(w'.log.acks[j].session.id))
  }

  lemma LaterUpload(cfg: Config, w: World, r: nat, io: CommitIo)
    requires InLine(w) && w.lobby.Some? && r in w.uploads && EndUpload(cfg, w, r, io).lobby.Some?
    ensures Later(w, EndUpload(cfg, w, r, io)) && EndUpload(cfg, w, r, io).log.departed <= w.log.departed + 1
  {
    InLineUpload(cfg, w, r, io);
    var freed := CommitSlot(cfg, w.lobby.value, w.disk, w.uploads[r], w.now, io);
  }

  lemma LaterNext(cfg: Config, w: World, e: Event)
    requires InLine(w) && Enabled(w, e) && w.lobby.Some? && Next(cfg, w, e).lobby.Some?
    ensures Later(w, Next(cfg, w, e)) && Next(cfg, w, e).log.departed <= w.log.departed + 1
  {
    if e.JoinEnd? {
      InLineJoin(cfg, w, e.req, e.id);
    } else if e.UploadEnd? {
      LaterUpload(cfg, w, e.req, e.io);
    } else if e.Tick? {
      InLineTick(cfg, w);
    } else {
      OthersKeepLine(cfg, w, e);
    }
  }

  lemma LaterTransitive(w: World, v: World, w': World)
    requires InLine(w) && InLine(v) && InLine(w')
    requires w.lobby.Some? && v.lobby.Some? && w'.lobby.Some? && Later(w, v) && Later(v, w')
    ensures Later(w, w')
  {
    if w.lobby.value.closed {
      forall j | |w.log.acks| <= j < |w'.log.acks| ensures w.lobby.value.Holds(w'.log.acks[j].session.id) {
        if j < |v.log.acks| {
          assert w'.log.acks[j] == v.log.acks[j];
        } else {
          assert v.lobby.value.Holds(w'.log.acks[j].session.id);
        }
      }
    }
  }

  lemma {:induction false} LaterRun(cfg: Config, w: World, es: seq<Event>)
    requires InLine(w) && Legal(cfg, w, es) && Alive(cfg, w, es) && w.lobby.Some?
    ensures InLine(Run(cfg, w, es)) && Later(w, Run(cfg, w, es))
    decreases |es|
  {
    var n := |es| - 1;
    if es != [] {
      var v := Run(cfg, w, es[..n]);
      LaterRun(cfg, w, es[..n]);
      InLineNext(cfg, v, es[n]);
      LaterNext(cfg, v, es[n]);
      LaterTransitive(w, v, Next(cfg, v, es[n]));
    }
  }

  /** A session that reads position p reads p - k after k departures while the lobby
      stays open: it holds the slot after exactly p of them and is gone after more.  */
  lemma PositionIsExact(cfg: Config, w: World, es: seq<Event>, id: string)
    requires InLine(w) && Legal(cfg, w, es) && Alive(cfg, w, es) && w.lobby.Some?
    requires Position(w.lobby.value, id) >= 0 && !Run(cfg, w, es).lobby.value.closed
    ensures var p, w' := Position(w.lobby.value, id), Run(cfg, w, es);
            var k := w'.log.departed - w.log.departed;
            && 0 <= k
            && Position(w'.lobby.value, id) == (if k <= p then p - k else -1)
            && (w'.lobby.value.Holds(id) <==> k == p)
  {
    LaterRun(cfg, w, es);
    var w' := Run(cfg, w, es);
    var i := JoinIndex(w, id);
    PositionCountsDepartures(w, i);
    PositionCountsDepartures(w', i);
    assert w'.log.joined[i].id == id;
    OpenHolds(w, i);
    if w'.log.departed <= i {
      OpenHolds(w', i);
    }
    HolderIsPositionZero(w', id);
  }

  lemma {:induction false} PlacedIsQueued(queue: seq<Session>, id: string)
    requires Place(queue, id) >= 0
    ensures 1 <= Place(queue, id) <= |queue| && queue[Place(queue, id) - 1].id == id
  {
    if queue[0].id != id {
      PlacedIsQueued(queue[1..], id);
    }
  }

  lemma JoinIndex(w: World, id: string) returns (i: nat)
    requires InLine(w) && w.lobby.Some? && Position(w.lobby.value, id) >= 0
    ensures i < |w.log.joined| && w.log.joined[i].id == id && w.log.departed <= i
  {
    var lobby := w.lobby.value;
    if lobby.Holds(id) {
      i := w.log.departed;
      assert w.log.joined[i] == w.log.admitted[i];
    } else {
      PlacedIsQueued(lobby.queue, id);
      i := |w.log.admitted| + Place(lobby.queue, id) - 1;
      assert w.log.joined[i] == lobby.queue[Place(lobby.queue, id) - 1];
    }
  }

  /** In an open lobby someone holds the slot while anyone is left who has not departed. */
  lemma OpenHolds(w: World, i: nat)
    requires InLine(w) && w.lobby.Some? && !w.lobby.value.closed && i < |w.log.joined| && w.log.departed <= i
    ensures Held(w) == 1
  {
    assert |w.log.joined| == |w.log.admitted| + |w.lobby.value.queue|;
  }

  lemma HolderIsPositionZero(w: World, id: string)
    requires w.lobby.Some?
    ensures w.lobby.value.Holds(id) <==> Position(w.lobby.value, id) == 0
  {
    if Place(w.lobby.value.queue, id) >= 0 {
      PlacedIsQueued(w.lobby.value.queue, id);
    }
  }

  /** One contiguous period in the slot: whoever was admitted and does not hold it now
      never holds it again.  */
  lemma NeverAgain(cfg: Config, w: World, es: seq<Event>, i: nat)
    requires InLine(w) && Legal(cfg, w, es) && Alive(cfg, w, es) && w.lobby.Some?
    requires i < |w.log.admitted| && !w.lobby.value.Holds(w.log.admitted[i].id)
    ensures !Run(cfg, w, es).lobby.value.Holds(w.log.admitted[i].id)
  {
    LaterRun(cfg, w, es);
    var w' := Run(cfg, w, es);
    assert w.log.joined[i] == w.log.admitted[i];
    assert i < w.log.departed;
    assert w'.log.joined[i] == w.log.admitted[i];
    if w'.lobby.value.active.Some? {
      assert w'.log.joined[w'.log.departed] == w'.log.admitted[w'.log.departed];
    }
  }

  /** After Close nobody is admitted, not even a join caught between its sections, and
      at most one more receipt is given, to the session that held the slot.  */
  lemma AfterClose(cfg: Config, w: World, es: seq<Event>)
    requires InLine(w) && Legal(cfg, w, es) && Alive(cfg, w, es) && w.lobby.Some? && w.lobby.value.closed
    ensures var w' := Run(cfg, w, es);
            && w'.log.admitted == w.log.admitted
            && |w'.log.acks| <= |w.log.acks| + Held(w)
            && (forall j :: |w.log.acks| <= j < |w'.log.acks| ==> w.lobby.value.Holds(w'.log.acks[j].session.id))
            && (w.lobby.value.queue != [] || w'.log.joined != w.log.joined ==> w'.lobby.value.queue != [])
  {
    LaterRun(cfg, w, es);
    var w' := Run(cfg, w, es);
    assert |w'.log.joined| == |w'.log.admitted| + |w'.lobby.value.queue|;
    assert |w.log.joined| == |w.log.admitted| + |w.lobby.value.queue|;
  }

  // ---- one receipt a session ----

  /** Receipts go to distinct sessions, none of which holds or awaits the slot. */
  ghost predicate OneReceiptEach(w: World) {
    && (forall i, j :: 0 <= i < j < |w.log.acks| ==> w.log.acks[i].session.id != w.log.acks[j].session.id)
    && (w.lobby.Some? ==>
          forall a, i :: a in w.log.acks && w.log.departed <= i < |w.log.joined| ==> w.log.joined[i].id != a.session.id)
  }

  lemma OneReceiptFrame(w: World, w': World)
    requires OneReceiptEach(w) && w.lobby.Some? && w'.log.acks == w.log.acks
    requires w'.log.joined == w.log.joined && w.log.departed <= w'.log.departed
    ensures OneReceiptEach(w')
  {
  }

  lemma OneReceiptNext(cfg: Config, w: World, e: Event)
    requires InLine(w) && OneReceiptEach(w) && Enabled(w, e)
    ensures OneReceiptEach(Next(cfg, w, e))
  {
    var w' := Next(cfg, w, e);
    if w.lobby.Some? && w'.lobby.Some? {
      if e.JoinEnd? {
        InLineJoin(cfg, w, e.req, e.id);
      } else if e.UploadEnd? {
        OneReceiptUpload(cfg, w, e.req, e.io);
      } else if e.Tick? {
        InLineTick(cfg, w);
        OneReceiptFrame(w, w');
      } else {
        OthersKeepLine(cfg, w, e);
        OneReceiptFrame(w, w');
      }
    }
  }

  lemma OneReceiptUpload(cfg: Config, w: World, r: nat, io: CommitIo)
    requires InLine(w) && OneReceiptEach(w) && w.lobby.Some? && r in w.uploads && EndUpload(cfg, w, r, io).lobby.Some?
    ensures OneReceiptEach(EndUpload(cfg, w, r, io))
  {
    InLineUpload(cfg, w, r, io);
    var w', n := EndUpload(cfg, w, r, io), |w.log.acks|;
    if UploadOutcome(cfg, w, r, io).reply.Accepted? {
      assert w'.log.acks == w.log.acks + [w'.log.acks[n]];
      var d := w.log.departed;
      assert w.log.joined[d] == w.log.admitted[d];
      assert w.log.joined[d].id == w'.log.acks[n].session.id;
      assert w'.log.joined == w.log.joined;
    }
  }

  /** In every run, whatever the client retries, however its uploads overlap and
      whatever fails, a session gets at most one receipt; and from then on it never
      holds the slot, so a retry after a lost reply is always refused.  */
  lemma {:induction false} AtMostOneReceipt(cfg: Config, w: World, es: seq<Event>)
    requires InLine(w) && OneReceiptEach(w) && Legal(cfg, w, es)
    ensures InLine(Run(cfg, w, es)) && OneReceiptEach(Run(cfg, w, es))
    ensures var w' := Run(cfg, w, es);
            forall a :: a in w'.log.acks && w'.lobby.Some? ==> !w'.lobby.value.Holds(a.session.id)
    decreases |es|
  {
    var n, w' := |es| - 1, Run(cfg, w, es);
    if es != [] {
      AtMostOneReceipt(cfg, w, es[..n]);
      InLineNext(cfg, Run(cfg, w, es[..n]), es[n]);
      OneReceiptNext(cfg, Run(cfg, w, es[..n]), es[n]);
    }
    if w'.lobby.Some? && w'.lobby.value.active.Some? {
      assert w'.log.joined[w'.log.departed] == w'.log.admitted[w'.log.departed];
    }
  }
}
