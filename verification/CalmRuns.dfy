/** Runs whose writes succeed, with crashes and restarts between commits. */
module CalmRuns {
  import opened Basics
  import opened Crypto
  import opened Names
  import opened Transcripts
  import opened Storage
  import opened Protocol
  import opened Safety
  import opened Queue
  import opened Timing

  /** The reads and writes of this event succeed. */
  predicate Calm(e: Event) {
    && (e.UploadEnd? ==> e.io == CommitIo(Good, Good, Good))
    && (e.StartUp? ==> e.startIo == StartIo(true, true, Good, Good))
  }

  ghost predicate CalmRun(es: seq<Event>) {
    forall i :: 0 <= i < |es| ==> Calm(es[i])
  }

  function AcceptedBlobs(acks: seq<Ack>): seq<Blob> {
    seq(|acks|, i requires 0 <= i < |acks| => acks[i].next)
  }

  /** The init head and then every accepted contribution. */
  function History(origin: Blob, acks: seq<Ack>): seq<Blob> {
    [origin] + AcceptedBlobs(acks)
  }

  /** The entry that contribution i, made on top of prev, must have left. */
  function EntryOf(be: Backend, i: nat, prev: Blob, a: Ack): Entry {
    Entry(i, a.session.who, be.Sha(prev), be.Sha(a.next), BlobName(i, be.hash(a.next)), a.at)
  }

  /** The entries these contributions must have left, computed from nothing else. */
  function Ledger(be: Backend, origin: Blob, acks: seq<Ack>): seq<Entry> {
    seq(|acks|, i requires 0 <= i < |acks| => EntryOf(be, i, History(origin, acks)[i], acks[i]))
  }

  function Refs(doc: Document): seq<string> {
    seq(|doc.entries|, i requires 0 <= i < |doc.entries| => doc.entries[i].blobRef)
  }

  /** The names of the files these contributions must have left. */
  function FileNames(be: Backend, acks: seq<Ack>): seq<string> {
    seq(|acks|, i requires 0 <= i < |acks| => BlobName(i, be.hash(acks[i].next)))
  }

  /** The directory holds these blobs under these names and nothing else. */
  ghost predicate Filed(names: seq<string>, blobs: seq<Blob>, dir: map<string, Blob>) {
    && |names| == |blobs| && dir.Keys == Members(names)
    && forall i :: 0 <= i < |names| ==> names[i] in dir && dir[names[i]] == blobs[i]
  }

  /** The disk holds this linked history, these entries and these files. */
  ghost predicate Archives(be: Backend, hist: seq<Blob>, ledger: seq<Entry>, names: seq<string>, disk: Disk) {
    && |hist| == |ledger| + 1
    && disk.doc.Some?
    && disk.doc.value.initHash == be.Sha(hist[0])
    && disk.doc.value.entries == ledger
    && be.Linked(hist)
    && disk.head == Some(hist[|ledger|])
    && Filed(names, hist[1..], disk.blobs)
  }

  /** The disk is what the accepted contributions determine. */
  ghost predicate SettledDisk(be: Backend, origin: Blob, acks: seq<Ack>, disk: Disk) {
    Archives(be, History(origin, acks), Ledger(be, origin, acks), FileNames(be, acks), disk)
  }

  ghost predicate Settled(cfg: Config, w: World) {
    && (w.disk.doc.None? ==> w.lobby.None? && w.log.acks == [] && w.disk.blobs == map[])
    && (w.disk.doc.Some? ==> SettledDisk(cfg.be, w.log.origin, w.log.acks, w.disk))
    && (w.lobby.Some? ==>
          w.disk.doc == Some(w.lobby.value.doc) && w.disk.head == Some(w.lobby.value.head))
  }

  /** A captured upload whose session still holds the slot started from the head. */
  ghost predicate InFlightStable(w: World) {
    w.lobby.Some? ==>
      forall r :: r in w.uploads && w.lobby.value.Holds(w.uploads[r].session.id) ==>
        w.uploads[r].prevHead == w.lobby.value.head
  }

  ghost predicate Steady(cfg: Config, w: World) {
    InLine(w) && Settled(cfg, w) && InFlightStable(w)
  }

  lemma LedgerTail(be: Backend, origin: Blob, acks: seq<Ack>, doc: Document)
    requires doc.initHash == be.Sha(origin) && doc.entries == Ledger(be, origin, acks)
    ensures doc.Tail() == be.Sha(History(origin, acks)[|acks|])
  {
  }

  lemma LedgerGrows(be: Backend, origin: Blob, acks: seq<Ack>, a: Ack)
    ensures History(origin, acks + [a]) == History(origin, acks) + [a.next]
    ensures Ledger(be, origin, acks + [a])
      == Ledger(be, origin, acks) + [EntryOf(be, |acks|, History(origin, acks)[|acks|], a)]
  {
    var hist, hist' := History(origin, acks), History(origin, acks + [a]);
    assert hist' == hist + [a.next];
    forall i | 0 <= i < |acks| ensures Ledger(be, origin, acks + [a])[i] == Ledger(be, origin, acks)[i] {
      assert hist'[i] == hist[i] && (acks + [a])[i] == acks[i];
    }
  }

  lemma FiledGrows(names: seq<string>, blobs: seq<Blob>, dir: map<string, Blob>, name: string, b: Blob)
    requires Filed(names, blobs, dir) && name !in names
    ensures Filed(names + [name], blobs + [b], dir[name := b])
  {
    assert Members(names + [name]) == Members(names) + {name};
  }

  lemma NewFileName(be: Backend, acks: seq<Ack>, a: Ack)
    ensures BlobName(|acks|, be.hash(a.next)) !in FileNames(be, acks)
    ensures FileNames(be, acks + [a]) == FileNames(be, acks) + [BlobName(|acks|, be.hash(a.next))]
  {
    NameTellsIndex(|acks|, be.hash(a.next));
    forall i | 0 <= i < |acks| ensures FileNames(be, acks)[i] != BlobName(|acks|, be.hash(a.next)) {
      NameTellsIndex(i, be.hash(acks[i].next));
    }
  }

  lemma ArchivesGrow(be: Backend, hist: seq<Blob>, ledger: seq<Entry>, names: seq<string>, disk: Disk,
                     e: Entry, next: Blob, disk': Disk)
    requires Archives(be, hist, ledger, names, disk) && be.stepOK(disk.head.value, next) && e.blobRef !in names
    requires disk'.head == Some(next) && disk'.doc == Some(disk.doc.value.(entries := ledger + [e]))
    requires disk'.blobs == disk.blobs[e.blobRef := next]
    ensures Archives(be, hist + [next], ledger + [e], names + [e.blobRef], disk')
  {
    FiledGrows(names, hist[1..], disk.blobs, e.blobRef, next);
    assert (hist + [next])[1..] == hist[1..] + [next];
  }

  /** w' is w after this contribution was recorded as entry e and acknowledged. */
  ghost predicate Advances(be: Backend, w: World, next: Blob, e: Entry, w': World)
    requires w.disk.doc.Some?
  {
    var origin, acks, acks' := w.log.origin, w.log.acks, w'.log.acks;
    && w'.log.origin == origin
    && History(origin, acks') == History(origin, acks) + [next]
    && Ledger(be, origin, acks') == Ledger(be, origin, acks) + [e]
    && FileNames(be, acks') == FileNames(be, acks) + [e.blobRef]
    && e.blobRef !in FileNames(be, acks)
    && w'.disk.head == Some(next) && w'.disk.blobs == w.disk.blobs[e.blobRef := next]
    && w'.disk.doc == Some(w.disk.doc.value.(entries := w.disk.doc.value.entries + [e]))
    && w'.lobby.Some? && w'.lobby.value.head == next && w'.disk.doc == Some(w'.lobby.value.doc)
  }

  lemma AdvanceSettles(cfg: Config, w: World, next: Blob, e: Entry, w': World)
    requires Settled(cfg, w) && w.disk.doc.Some? && cfg.be.stepOK(w.disk.head.value, next)
    requires Advances(cfg.be, w, next, e, w')
    ensures Settled(cfg, w')
  {
    ArchivesGrow(cfg.be, History(w.log.origin, w.log.acks), Ledger(cfg.be, w.log.origin, w.log.acks),
                 FileNames(cfg.be, w.log.acks), w.disk, e, next, w'.disk);
  }

  /** The upload was appended, saved and acknowledged, as contribution n. */
  ghost predicate Committed(be: Backend, w: World, up: Upload, w': World)
    requires w.lobby.Some?
  {
    var n, name := |w.log.acks|, BlobName(|w.log.acks|, be.hash(up.next));
    var receipt := Receipt(n, be.Sha(w.lobby.value.head), be.Sha(up.next), name);
    && w'.log.origin == w.log.origin
    && w'.log.acks == w.log.acks + [Ack(up.session, up.next, w.now, receipt)]
    && w'.lobby.Some? && w'.lobby.value.head == up.next && w'.disk.head == Some(up.next)
    && w'.disk.doc == Some(w'.lobby.value.doc)
    && w'.disk.blobs == w.disk.blobs[name := up.next]
    && w'.lobby.value.doc == w.lobby.value.doc.(entries := w.lobby.value.doc.entries +
         [Entry(n, up.session.who, be.Sha(w.lobby.value.head), be.Sha(up.next), name, w.now)])
  }

  /** In a steady world the commit check on the session alone is enough: a verified
      upload whose session holds the slot is appended, saved and acknowledged, and its
      receipt is the new entry.  */
  lemma SlotCheckSuffices(cfg: Config, w: World, r: nat)
    requires Steady(cfg, w) && w.lobby.Some? && r in w.uploads
    requires w.lobby.value.Holds(w.uploads[r].session.id) && cfg.be.stepOK(w.uploads[r].prevHead, w.uploads[r].next)
    ensures UploadOutcome(cfg, w, r, CommitIo(Good, Good, Good)).reply.Accepted?
    ensures Committed(cfg.be, w, w.uploads[r], EndUpload(cfg, w, r, CommitIo(Good, Good, Good)))
  {
    LedgerTail(cfg.be, w.log.origin, w.log.acks, w.lobby.value.doc);
  }

  lemma RefusedUpload(cfg: Config, w: World, r: nat, io: CommitIo)
    requires w.lobby.Some? && r in w.uploads
    requires !w.lobby.value.Holds(w.uploads[r].session.id) || !cfg.be.stepOK(w.uploads[r].prevHead, w.uploads[r].next)
    ensures EndUpload(cfg, w, r, io) == w.(uploads := w.uploads - {r})
  {
  }

  lemma CommittedAdvances(cfg: Config, w: World, up: Upload, w': World) returns (e: Entry)
    requires Settled(cfg, w) && w.lobby.Some? && Committed(cfg.be, w, up, w')
    ensures Advances(cfg.be, w, up.next, e, w')
  {
    var acks := w.log.acks;
    var a := w'.log.acks[|acks|];
    LedgerGrows(cfg.be, w.log.origin, acks, a);
    NewFileName(cfg.be, acks, a);
    e := w'.lobby.value.doc.entries[|acks|];
  }

  lemma SettledUpload(cfg: Config, w: World, r: nat)
    requires Steady(cfg, w) && w.lobby.Some? && r in w.uploads
    ensures Settled(cfg, EndUpload(cfg, w, r, CommitIo(Good, Good, Good)))
  {
    var up := w.uploads[r];
    if w.lobby.value.Holds(up.session.id) && cfg.be.stepOK(up.prevHead, up.next) {
      SlotCheckSuffices(cfg, w, r);
      var e := CommittedAdvances(cfg, w, up, EndUpload(cfg, w, r, CommitIo(Good, Good, Good)));
      AdvanceSettles(cfg, w, up.next, e, EndUpload(cfg, w, r, CommitIo(Good, Good, Good)));
    } else {
      RefusedUpload(cfg, w, r, CommitIo(Good, Good, Good));
    }
  }

  lemma SettledFrame(cfg: Config, w: World, w': World)
    requires Settled(cfg, w) && SameRecord(w, w')
    ensures Settled(cfg, w')
  {
  }

  lemma SettledNext(cfg: Config, w: World, e: Event)
    requires Steady(cfg, w) && Enabled(w, e) && Calm(e)
    ensures Settled(cfg, Next(cfg, w, e))
  {
    match e
    case UploadEnd(r, io) => SettledUpload(cfg, w, r);
    case StartUp(init, circuit, io) => SettledStart(cfg, w, init, circuit, io);
    case _ =>
      OthersKeepRecord(cfg, w, e);
      SettledFrame(cfg, w, Next(cfg, w, e));
  }

  lemma SettledStart(cfg: Config, w: World, init: Blob, circuit: string, io: StartIo)
    requires Settled(cfg, w) && w.lobby.None? && io == StartIo(true, true, Good, Good)
    ensures Settled(cfg, DoStart(cfg, w, init, circuit, io))
  {
    if w.disk.doc.None? {
      assert History(init, []) == [init] && AcceptedBlobs([]) == [] && FileNames(cfg.be, []) == [];
      assert Ledger(cfg.be, init, []) == [];
    }
  }

  /** A session new to the slot has no upload in flight. */
  lemma NewHolderHasNoUpload(cfg: Config, w: World, e: Event, r: nat)
    requires InLine(w) && Enabled(w, e) && w.lobby.Some? && Next(cfg, w, e).lobby.Some? && r in w.uploads
    requires Next(cfg, w, e).lobby.value.active != w.lobby.value.active
    ensures !Next(cfg, w, e).lobby.value.Holds(w.uploads[r].session.id)
  {
    var w' := Next(cfg, w, e);
    InLineNext(cfg, w, e);
    LaterNext(cfg, w, e);
    SlotCases(cfg, w, e);
    if w'.lobby.value.active.Some? {
      var i :| 0 <= i < |w.log.admitted| && w.log.admitted[i] == w.uploads[r].session;
      var k := w'.log.departed;
      assert w'.log.joined[i] == w.uploads[r].session && w'.log.joined[k] == w'.lobby.value.active.value;
    }
  }

  /** The head only moves by a commit that hands the slot over. */
  lemma HeadStays(cfg: Config, w: World, e: Event)
    requires Steady(cfg, w) && Enabled(w, e) && Calm(e) && w.lobby.Some? && Next(cfg, w, e).lobby.Some?
    requires Next(cfg, w, e).lobby.value.active == w.lobby.value.active
    ensures Next(cfg, w, e).lobby.value.head == w.lobby.value.head
  {
    if e.UploadEnd? {
      var up := w.uploads[e.req];
      if w.lobby.value.Holds(up.session.id) && cfg.be.stepOK(up.prevHead, up.next) {
        SlotCheckSuffices(cfg, w, e.req);
        SlotUpload(cfg, w, e.req, e.io);
        InLineUpload(cfg, w, e.req, e.io);
        var freed := CommitSlot(cfg, w.lobby.value, w.disk, up, w.now, e.io);
        ReleaseHandsOver(cfg, w, freed);
      } else {
        RefusedUpload(cfg, w, e.req, e.io);
      }
    } else {
      OthersKeepRecord(cfg, w, e);
    }
  }

  /** A step adds no upload but that of the holder, captured at the head. */
  lemma UploadsStart(cfg: Config, w: World, e: Event, r: nat)
    requires Enabled(w, e) && w.lobby.Some? && Next(cfg, w, e).lobby.Some? && r in Next(cfg, w, e).uploads
    ensures var w' := Next(cfg, w, e);
            || (r in w.uploads && w'.uploads[r] == w.uploads[r])
            || (w'.uploads[r].prevHead == w.lobby.value.head && w'.lobby.value.active == w.lobby.value.active)
  {
  }

  lemma InFlightNext(cfg: Config, w: World, e: Event)
    requires Steady(cfg, w) && Enabled(w, e) && Calm(e)
    ensures InFlightStable(Next(cfg, w, e))
  {
    var w' := Next(cfg, w, e);
    if w.lobby.Some? && w'.lobby.Some? {
      if w'.lobby.value.active == w.lobby.value.active {
        HeadStays(cfg, w, e);
      }
      forall r | r in w'.uploads && w'.lobby.value.Holds(w'.uploads[r].session.id)
        ensures w'.uploads[r].prevHead == w'.lobby.value.head
      {
        UploadsStart(cfg, w, e, r);
        if w'.lobby.value.active != w.lobby.value.active {
          NewHolderHasNoUpload(cfg, w, e, r);
        }
      }
    }
  }

  /** In every run whose writes succeed, with crashes and restarts between commits:
      head, transcript and blob files are those of the accepted contributions, and a
      captured upload that may still commit started from the head, so the check in
      Append never fires.  */
  lemma {:induction false} AlwaysSteady(cfg: Config, w: World, es: seq<Event>)
    requires Steady(cfg, w) && Legal(cfg, w, es) && CalmRun(es)
    ensures Steady(cfg, Run(cfg, w, es))
    decreases |es|
  {
    var n := |es| - 1;
    if es != [] {
      AlwaysSteady(cfg, w, es[..n]);
      var v := Run(cfg, w, es[..n]);
      InLineNext(cfg, v, es[n]);
      SettledNext(cfg, v, es[n]);
      InFlightNext(cfg, v, es[n]);
    }
  }
}
