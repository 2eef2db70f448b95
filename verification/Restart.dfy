/** Which ceremonies can go on after a death. */
module Restart {
  import opened Basics
  import opened Crypto
  import opened Transcripts
  import opened Storage
  import opened Protocol
  import opened Safety
  import opened Recovery
  import opened OneEntry

  /** The durable head is not the tail of the durable transcript. */
  predicate Torn(be: Backend, disk: Disk) {
    disk.doc.Some? && disk.head.Some? && be.Sha(disk.head.value) != disk.doc.value.Tail()
  }

  // ---- which events tear head and transcript apart ----

  /** The head that this event saves: that of a commit that appended, or the init head
      of a start that could not read the transcript.  */
  function SavedHead(cfg: Config, w: World, e: Event): Option<Blob>
    requires Enabled(w, e)
  {
    if e.UploadEnd? && CommitAppends(cfg, w.lobby.value, w.uploads[e.req], e.io) && !e.io.head.Bad? then
      Some(w.uploads[e.req].next)
    else if e.StartUp? && !Resumes(w.disk, e.startIo) && !e.startIo.head.Bad? then
      Some(e.init)
    else None
  }

  /** The event that saves a head goes on to save the transcript. */
  predicate SavesBoth(e: Event) {
    || (e.UploadEnd? && e.io.head.Good? && !e.io.doc.Bad?)
    || (e.StartUp? && e.startIo.head.Good? && !e.startIo.doc.Bad?)
  }

  /** A head saved by this event fits the transcript that the disk then holds. */
  predicate Fits(cfg: Config, w: World, e: Event)
    requires Enabled(w, e)
  {
    var head := SavedHead(cfg, w, e);
    head.Some? && !SavesBoth(e) && w.disk.doc.Some? ==> cfg.be.Sha(head.value) == w.disk.doc.value.Tail()
  }

  /** Head and transcript disagree after the event. */
  predicate TornAfter(cfg: Config, w: World, e: Event)
    requires Enabled(w, e)
  {
    if SavedHead(cfg, w, e).None? then Torn(cfg.be, w.disk) else !Fits(cfg, w, e)
  }

  lemma TornCommit(cfg: Config, w: World, r: nat, io: CommitIo)
    requires w.lobby.Some? && r in w.uploads
    ensures Torn(cfg.be, EndUpload(cfg, w, r, io).disk) <==> TornAfter(cfg, w, UploadEnd(r, io))
  {
    CommitShape(cfg, w.lobby.value, w.disk, w.uploads[r], w.now, io);
  }

  lemma TornStart(cfg: Config, w: World, init: Blob, circuit: string, io: StartIo)
    requires w.lobby.None?
    ensures Torn(cfg.be, DoStart(cfg, w, init, circuit, io).disk) <==> TornAfter(cfg, w, StartUp(init, circuit, io))
  {
  }

  /** An event that saves no head leaves torn what was torn; one that saves a head
      leaves the two torn exactly when it stops there and the head does not fit.  */
  lemma TornNext(cfg: Config, w: World, e: Event)
    requires Enabled(w, e)
    ensures Torn(cfg.be, Next(cfg, w, e).disk) <==> TornAfter(cfg, w, e)
  {
    match e
    case UploadEnd(r, io) => TornCommit(cfg, w, r, io);
    case StartUp(init, circuit, io) => TornStart(cfg, w, init, circuit, io);
    case _ => OthersKeepRecord(cfg, w, e);
  }

  /** Head and transcript agree at every point of the run. */
  ghost predicate AlwaysWhole(cfg: Config, w: World, es: seq<Event>)
    requires Legal(cfg, w, es)
    decreases |es|
  {
    !Torn(cfg.be, Run(cfg, w, es).disk) && (es != [] ==> AlwaysWhole(cfg, w, es[..|es| - 1]))
  }

  /** Every head that is saved without its transcript fits the transcript on disk. */
  ghost predicate AlwaysFits(cfg: Config, w: World, es: seq<Event>)
    requires Legal(cfg, w, es)
    decreases |es|
  {
    es != [] ==>
      var n := |es| - 1;
      AlwaysFits(cfg, w, es[..n]) && Fits(cfg, Run(cfg, w, es[..n]), es[n])
  }

  /** Head and transcript agree throughout a run, whatever fails, crashes and restarts,
      exactly when no commit and no start saves a head alone that does not fit.  */
  lemma {:induction false} StaysWhole(cfg: Config, w: World, es: seq<Event>)
    requires Legal(cfg, w, es) && !Torn(cfg.be, w.disk)
    ensures AlwaysWhole(cfg, w, es) <==> AlwaysFits(cfg, w, es)
    decreases |es|
  {
    var n := |es| - 1;
    if es != [] {
      StaysWhole(cfg, w, es[..n]);
      TornNext(cfg, Run(cfg, w, es[..n]), es[n]);
      if AlwaysWhole(cfg, w, es[..n]) {
        WholeNow(cfg, w, es[..n]);
      }
    }
  }

  lemma WholeNow(cfg: Config, w: World, es: seq<Event>)
    requires Legal(cfg, w, es) && AlwaysWhole(cfg, w, es)
    ensures !Torn(cfg.be, Run(cfg, w, es).disk)
  {
  }

  /** Without a process a ceremony is wedged exactly when its disk is torn. */
  lemma WedgedIsTorn(cfg: Config, w: World)
    requires w.lobby.None? && w.uploads == map[]
    ensures Wedged(cfg, w) <==> Torn(cfg.be, w.disk)
  {
  }

  /** A start wedges the ceremony exactly when it finds it wedged and writes nothing, or
      cannot read the transcript, saves a head that does not fit it, and stops there.  */
  lemma WhenAStartWedges(cfg: Config, w: World, init: Blob, circuit: string, io: StartIo)
    requires w.lobby.None? && w.uploads == map[]
    ensures Wedged(cfg, Next(cfg, w, StartUp(init, circuit, io))) <==>
      if Resumes(w.disk, io) || io.head.Bad? then Wedged(cfg, w)
      else w.disk.doc.Some? && !Replaces(w, io) && cfg.be.Sha(init) != w.disk.doc.value.Tail()
  {
  }

  // ---- what a start leaves ----

  /** A start that finds a readable transcript writes nothing, and yields a process exactly
      when the transcript is for the configured circuit and the head can be read.  */
  lemma ResumeOrRefuse(cfg: Config, w: World, init: Blob, circuit: string, io: StartIo)
    requires w.lobby.None? && w.disk.doc.Some? && io.readDoc
    ensures var w' := Next(cfg, w, StartUp(init, circuit, io));
            && w'.disk == w.disk
            && (w'.lobby.Some? <==>
                  w.disk.doc.value.circuit == circuit && io.readHead && w.disk.head.Some?)
  {
  }

  /** A start that cannot read a transcript saves the init head, and only then an empty
      transcript for backend, circuit and init head; it yields a process exactly when both
      are saved, and never touches the blobs.  */
  lemma StartsAfresh(cfg: Config, w: World, init: Blob, circuit: string, io: StartIo)
    requires w.lobby.None? && !(w.disk.doc.Some? && io.readDoc)
    ensures var w' := Next(cfg, w, StartUp(init, circuit, io));
            && w'.disk.blobs == w.disk.blobs
            && w'.disk.head == (if io.head.Bad? then w.disk.head else Some(init))
            && (!io.head.Good? || io.doc.Bad? ==> w'.disk.doc == w.disk.doc)
            && (io.head.Good? && !io.doc.Bad? ==>
                  w'.disk.doc == Some(Document(cfg.be.curveName, circuit, cfg.be.Sha(init), [])))
            && (w'.lobby.Some? <==> io.head.Good? && io.doc.Good?)
  {
  }

  /** A process that starts has on disk what it has in memory; nobody waits, the slot is
      free, no request is under way, no challenge is on offer, and the lobby is open.  */
  lemma StartsIdle(cfg: Config, w: World, init: Blob, circuit: string, io: StartIo)
    requires w.lobby.None?
    ensures var w' := Next(cfg, w, StartUp(init, circuit, io));
            && w'.uploads == map[] && w'.joins == map[]
            && (w'.lobby.Some? ==>
                  var lobby := w'.lobby.value;
                  && w'.disk.head == Some(lobby.head) && w'.disk.doc == Some(lobby.doc)
                  && lobby.queue == [] && lobby.active.None? && !lobby.closed && lobby.chals == map[]
                  && lobby.avgContrib == 0)
  {
  }

  /** Event k is the start that began the process running at the end, for this circuit. */
  ghost predicate BegunBy(es: seq<Event>, k: nat, circuit: string) {
    && k < |es| && es[k].StartUp? && es[k].circuit == circuit
    && forall j :: k < j < |es| ==> !es[j].StartUp?
  }

  lemma CircuitStays(cfg: Config, w: World, e: Event)
    requires Enabled(w, e) && w.lobby.Some? && Next(cfg, w, e).lobby.Some?
    ensures !e.StartUp? && Next(cfg, w, e).lobby.value.doc.circuit == w.lobby.value.doc.circuit
  {
    if e.UploadEnd? {
      CommitShape(cfg, w.lobby.value, w.disk, w.uploads[e.req], w.now, e.io);
    } else {
      OthersKeepRecord(cfg, w, e);
    }
  }

  lemma CircuitOfStart(cfg: Config, w: World, e: Event)
    requires Enabled(w, e) && w.lobby.None? && Next(cfg, w, e).lobby.Some?
    ensures e.StartUp? && Next(cfg, w, e).lobby.value.doc.circuit == e.circuit
  {
    if e.StartUp? {
      if w.disk.doc.Some? && e.startIo.readDoc {
        ResumeOrRefuse(cfg, w, e.init, e.circuit, e.startIo);
        StartsIdle(cfg, w, e.init, e.circuit, e.startIo);
      } else {
        StartsAfresh(cfg, w, e.init, e.circuit, e.startIo);
        StartsIdle(cfg, w, e.init, e.circuit, e.startIo);
      }
    }
  }

  /** In every run the running process works on a transcript of the circuit that the start
      which began it was given, resumed or fresh.  */
  lemma {:induction false} RunsItsCircuit(cfg: Config, w: World, es: seq<Event>)
    requires w.lobby.None? && Legal(cfg, w, es) && Run(cfg, w, es).lobby.Some?
    ensures exists k: nat :: BegunBy(es, k, Run(cfg, w, es).lobby.value.doc.circuit)
    decreases |es|
  {
    var n := |es| - 1;
    var v := Run(cfg, w, es[..n]);
    var circuit := Run(cfg, w, es).lobby.value.doc.circuit;
    if v.lobby.Some? {
      RunsItsCircuit(cfg, w, es[..n]);
      CircuitStays(cfg, v, es[n]);
      var k: nat :| BegunBy(es[..n], k, circuit);
      assert es[..n][k] == es[k];
      assert forall j :: k < j < n ==> es[..n][j] == es[j];
      assert BegunBy(es, k, circuit);
    } else {
      CircuitOfStart(cfg, v, es[n]);
      assert BegunBy(es, n, circuit);
    }
  }

  // ---- after a death ----

  /** The transcript can be read whenever the sequencer starts. */
  predicate ReadableStarts(es: seq<Event>) {
    forall i :: 0 <= i < |es| && es[i].StartUp? ==> es[i].startIo.readDoc
  }

  /** A run that begins with a death and in which a contribution is accepted. */
  ghost predicate GoesOn(cfg: Config, w: World, es: seq<Event>) {
    && Legal(cfg, w, es) && es != [] && es[0].Crash? && ReadableStarts(es)
    && |Run(cfg, w, es).log.acks| > |w.log.acks|
  }

  lemma {:induction false} TornForever(cfg: Config, w: World, es: seq<Event>)
    requires Torn(cfg.be, w.disk) && Legal(cfg, w, es) && es != [] && es[0].Crash? && ReadableStarts(es)
    ensures Wedged(cfg, Run(cfg, w, es)) && Run(cfg, w, es).log.acks == w.log.acks
    decreases |es|
  {
    var n := |es| - 1;
    if n > 0 {
      TornForever(cfg, w, es[..n]);
      WedgedNext(cfg, Run(cfg, w, es[..n]), es[n]);
    } else {
      assert es == [es[0]];
      OneStep(cfg, w, es[0]);
    }
  }

  lemma LastStep(cfg: Config, w: World, es: seq<Event>)
    requires Legal(cfg, w, es) && es != []
    ensures var n := |es| - 1;
            && Legal(cfg, w, es[..n]) && Enabled(Run(cfg, w, es[..n]), es[n])
            && Run(cfg, w, es) == Next(cfg, Run(cfg, w, es[..n]), es[n])
  {
  }

  lemma {:induction false} Concatenates(cfg: Config, w: World, xs: seq<Event>, ys: seq<Event>)
    requires Legal(cfg, w, xs) && Legal(cfg, Run(cfg, w, xs), ys)
    ensures Legal(cfg, w, xs + ys) && Run(cfg, w, xs + ys) == Run(cfg, Run(cfg, w, xs), ys)
    decreases |ys|
  {
    var n := |ys| - 1;
    if ys == [] {
      assert xs + ys == xs;
    } else {
      assert xs + ys == (xs + ys[..n]) + [ys[n]];
      LastStep(cfg, Run(cfg, w, xs), ys);
      Concatenates(cfg, w, xs, ys[..n]);
      Continues(cfg, w, xs + ys[..n], ys[n]);
    }
  }

  lemma ThreeLegs(cfg: Config, w: World, xs: seq<Event>, ys: seq<Event>, zs: seq<Event>)
    requires Legal(cfg, w, xs) && Legal(cfg, Run(cfg, w, xs), ys)
    requires Legal(cfg, Run(cfg, Run(cfg, w, xs), ys), zs)
    ensures Legal(cfg, w, xs + ys + zs)
    ensures Run(cfg, w, xs + ys + zs) == Run(cfg, Run(cfg, Run(cfg, w, xs), ys), zs)
  {
    Concatenates(cfg, w, xs, ys);
    Concatenates(cfg, w, xs + ys, zs);
  }

  const ALL_GOOD := CommitIo(Good, Good, Good)

  /** The process dies and is started again on what is on disk. */
  function Restarted(w: World): seq<Event>
    requires w.disk.doc.Some?
  {
    [Crash, StartUp(Blob([]), w.disk.doc.value.circuit, StartIo(true, true, Good, Good))]
  }

  /** A newcomer joins with a fresh challenge. */
  function Joining(c: string, who: Identity, id: string): seq<Event> {
    [IssueChallenge(c), JoinBegin(0, c, who), JoinEnd(0, id)]
  }

  function Uploading(id: string, next: Blob): seq<Event> {
    [UploadBegin(0, id, next), UploadEnd(0, ALL_GOOD)]
  }

  function WholeRun(w: World, c: string, who: Identity, id: string, next: Blob): (es: seq<Event>)
    requires w.disk.doc.Some?
    ensures es != [] && es[0].Crash? && ReadableStarts(es)
  {
    Restarted(w) + Joining(c, who, id) + Uploading(id, next)
  }

  /** An idle process over head and transcript as they are on disk. */
  predicate FreshOver(w: World, head: Blob, doc: Document) {
    w.lobby == Some(FreshLobby(head, doc)) && w.uploads == map[] && w.joins == map[]
  }

  lemma RestartsFresh(cfg: Config, w: World)
    requires w.disk.doc.Some? && w.disk.head.Some?
    ensures Legal(cfg, w, Restarted(w))
    ensures var w' := Run(cfg, w, Restarted(w));
            && FreshOver(w', w.disk.head.value, w.disk.doc.value)
            && w'.log.acks == w.log.acks && w'.log.tokens == w.log.tokens && w'.log.issued == w.log.issued
  {
    var es := Restarted(w);
    OneStep(cfg, w, es[0]);
    Continues(cfg, w, [es[0]], es[1]);
    assert [es[0]] + [es[1]] == es;
  }

  lemma JoinsFresh(cfg: Config, w: World, head: Blob, doc: Document, c: string, who: Identity, id: string)
    requires FreshOver(w, head, doc) && c !in w.log.issued && id !in w.log.tokens && cfg.Valid()
    ensures Legal(cfg, w, Joining(c, who, id))
    ensures var w' := Run(cfg, w, Joining(c, who, id));
            && w'.lobby.Some? && w'.lobby.value.Holds(id) && w'.uploads == map[]
            && w'.lobby.value.head == head && w'.lobby.value.doc == doc && w'.log.acks == w.log.acks
  {
    var es := Joining(c, who, id);
    ThreeSteps(cfg, w, es[0], es[1], es[2]);
  }

  lemma UploadsNext(cfg: Config, w: World, id: string, next: Blob)
    requires w.lobby.Some? && w.lobby.value.Holds(id) && w.uploads == map[]
    requires w.lobby.value.doc.Tail() == cfg.be.Sha(w.lobby.value.head) && cfg.be.stepOK(w.lobby.value.head, next)
    ensures Legal(cfg, w, Uploading(id, next))
    ensures |Run(cfg, w, Uploading(id, next)).log.acks| == |w.log.acks| + 1
  {
    var es := Uploading(id, next);
    SecondEntry(cfg, w, 0, id, next);
    OneStep(cfg, w, es[0]);
    Continues(cfg, w, [es[0]], es[1]);
    assert [es[0]] + [es[1]] == es;
  }

  /** A whole ceremony goes on: after a death and a start that can read its files, a
      newcomer that joins and uploads gets a receipt.  */
  lemma WholeGoesOn(cfg: Config, w: World, c: string, who: Identity, id: string, next: Blob) returns (es: seq<Event>)
    requires cfg.Valid() && w.disk.doc.Some? && w.disk.head.Some? && !Torn(cfg.be, w.disk)
    requires c !in w.log.issued && id !in w.log.tokens && cfg.be.stepOK(w.disk.head.value, next)
    ensures GoesOn(cfg, w, es)
  {
    RestartsFresh(cfg, w);
    var w1 := Run(cfg, w, Restarted(w));
    JoinsFresh(cfg, w1, w.disk.head.value, w.disk.doc.value, c, who, id);
    var w2 := Run(cfg, w1, Joining(c, who, id));
    UploadsNext(cfg, w2, id, next);
    ThreeLegs(cfg, w, Restarted(w), Joining(c, who, id), Uploading(id, next));
    es := WholeRun(w, c, who, id, next);
  }

  /** In any world with a head and a transcript on disk: if the process dies now, and as
      long as the transcript can be read at every start, a further contribution can be
      accepted exactly when the durable head is the tail of the durable transcript.  */
  lemma WhoGoesOn(cfg: Config, w: World, c: string, who: Identity, id: string, next: Blob)
    requires cfg.Valid() && w.disk.doc.Some? && w.disk.head.Some?
    requires c !in w.log.issued && id !in w.log.tokens && cfg.be.stepOK(w.disk.head.value, next)
    ensures !Torn(cfg.be, w.disk) <==> exists es :: GoesOn(cfg, w, es)
  {
    if Torn(cfg.be, w.disk) {
      forall es | GoesOn(cfg, w, es) ensures false {
        TornForever(cfg, w, es);
      }
    } else {
      var es := WholeGoesOn(cfg, w, c, who, id, next);
    }
  }
}
