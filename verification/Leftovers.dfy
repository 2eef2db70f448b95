/** Blob files that no entry of the durable transcript names. */
module Leftovers {
  import opened Crypto
  import opened Names
  import opened Transcripts
  import opened Storage
  import opened Protocol
  import opened Safety
  import opened Recovery
  import opened CalmRuns
  import opened EndToEnd

  /** Every file is named by an entry of the durable transcript. */
  ghost predicate Tidy(disk: Disk) {
    disk.blobs.Keys <= if disk.doc.Some? then Members(Refs(disk.doc.value)) else {}
  }

  lemma BlankIsTidy(w: World)
    requires Blank(w)
    ensures Tidy(w.disk)
  {
  }

  /** The commit saves its blob. */
  predicate SavesFile(cfg: Config, lobby: Lobby, up: Upload, io: CommitIo) {
    cfg.be.stepOK(up.prevHead, up.next) && lobby.Holds(up.session.id) && !io.blob.Bad?
  }

  /** The event leaves a file behind: a commit that saves its blob but then does not get
      as far as saving the transcript with its entry, for whatever reason, or a start
      that replaces a transcript whose files stay.  */
  predicate Strands(cfg: Config, w: World, e: Event)
    requires Enabled(w, e)
  {
    || (e.UploadEnd? && SavesFile(cfg, w.lobby.value, w.uploads[e.req], e.io)
        && !(CommitAppends(cfg, w.lobby.value, w.uploads[e.req], e.io) && e.io.head.Good? && !e.io.doc.Bad?))
    || (e.StartUp? && Replaces(w, e.startIo) && w.disk.blobs != map[])
  }

  /** The name under which a commit saves its blob is in neither transcript yet. */
  lemma NewName(cfg: Config, w: World, b: Blob)
    requires Sound(cfg, w) && w.lobby.Some?
    ensures var name := BlobName(|w.lobby.value.doc.entries|, cfg.be.hash(b));
            name !in Refs(w.lobby.value.doc) && name !in Refs(w.disk.doc.value)
  {
    var n, h := |w.lobby.value.doc.entries|, cfg.be.hash(b);
    UnreachedName(cfg.be, w.log.origin, w.lobby.value.doc, w.disk.blobs, n, h);
    UnreachedName(cfg.be, w.log.origin, w.disk.doc.value, w.disk.blobs, n, h);
  }

  lemma RefsOfAppended(doc: Document, e: Entry)
    requires doc.Append(e).Some?
    ensures Refs(doc.Append(e).value) == Refs(doc) + [e.blobRef]
    ensures Members(Refs(doc.Append(e).value)) == Members(Refs(doc)) + {e.blobRef}
  {
    var refs := Refs(doc);
    assert Refs(doc.Append(e).value) == refs + [e.blobRef];
    assert (refs + [e.blobRef])[|refs|] == e.blobRef;
    assert forall i :: 0 <= i < |refs| ==> (refs + [e.blobRef])[i] == refs[i];
  }

  lemma RefsOfEarlier(doc: Document, earlier: Document)
    requires doc.Extends(earlier)
    ensures Members(Refs(earlier)) <= Members(Refs(doc))
  {
    assert forall i :: 0 <= i < |earlier.entries| ==> Refs(doc)[i] == Refs(earlier)[i];
  }

  lemma TidyUpload(cfg: Config, w: World, r: nat, io: CommitIo)
    requires Sound(cfg, w) && Tidy(w.disk) && w.lobby.Some? && r in w.uploads
    ensures Tidy(EndUpload(cfg, w, r, io).disk) <==> !Strands(cfg, w, UploadEnd(r, io))
  {
    var lobby, up, disk' := w.lobby.value, w.uploads[r], EndUpload(cfg, w, r, io).disk;
    var name := BlobName(|lobby.doc.entries|, cfg.be.hash(up.next));
    CommitFiles(cfg, lobby, w.disk, up, w.now, io);
    CommitShape(cfg, lobby, w.disk, up, w.now, io);
    NewName(cfg, w, up.next);
    if disk'.doc == w.disk.doc {
      assert name !in Members(Refs(w.disk.doc.value));
    }
    if CommitAppends(cfg, lobby, up, io) {
      RefsOfAppended(lobby.doc, NewEntry(cfg.be, lobby, up, w.now));
      RefsOfEarlier(lobby.doc, w.disk.doc.value);
      LongerThanDurable(lobby.doc, NewEntry(cfg.be, lobby, up, w.now), w.disk.doc.value);
    }
  }

  lemma LongerThanDurable(doc: Document, e: Entry, durable: Document)
    requires doc.Append(e).Some? && doc.Extends(durable)
    ensures doc.Append(e).value != durable
  {
    assert |doc.Append(e).value.entries| > |durable.entries|;
  }

  lemma TidyStart(cfg: Config, w: World, init: Blob, circuit: string, io: StartIo)
    requires Tidy(w.disk) && w.lobby.None?
    ensures Tidy(DoStart(cfg, w, init, circuit, io).disk) <==> !Strands(cfg, w, StartUp(init, circuit, io))
  {
    assert Refs(EmptyDocument(cfg.be, init, circuit)) == [] && Members([]) == {};
    assert w.disk.blobs.Keys == {} <==> w.disk.blobs == map[];
  }

  /** From a directory whose files are all named, an event leads to another such exactly
      when it leaves no file behind.  */
  lemma TidyNext(cfg: Config, w: World, e: Event)
    requires Sound(cfg, w) && Tidy(w.disk) && Enabled(w, e)
    ensures Tidy(Next(cfg, w, e).disk) <==> !Strands(cfg, w, e)
  {
    match e
    case UploadEnd(r, io) => TidyUpload(cfg, w, r, io);
    case StartUp(init, circuit, io) => TidyStart(cfg, w, init, circuit, io);
    case _ => OthersKeepRecord(cfg, w, e);
  }

  /** Every file is named at every point of the run. */
  ghost predicate AlwaysTidy(cfg: Config, w: World, es: seq<Event>)
    requires Legal(cfg, w, es)
    decreases |es|
  {
    Tidy(Run(cfg, w, es).disk) && (es != [] ==> AlwaysTidy(cfg, w, es[..|es| - 1]))
  }

  ghost predicate NeverStrands(cfg: Config, w: World, es: seq<Event>)
    requires Legal(cfg, w, es)
    decreases |es|
  {
    es != [] ==>
      var n := |es| - 1;
      NeverStrands(cfg, w, es[..n]) && !Strands(cfg, Run(cfg, w, es[..n]), es[n])
  }

  /** Every file stays named throughout a run, whatever fails, crashes and restarts,
      exactly when no event leaves one behind.  */
  lemma {:induction false} StaysTidy(cfg: Config, w: World, es: seq<Event>)
    requires Sound(cfg, w) && cfg.be.CollisionFree() && Tidy(w.disk) && Legal(cfg, w, es)
    ensures AlwaysTidy(cfg, w, es) <==> NeverStrands(cfg, w, es)
    decreases |es|
  {
    var n := |es| - 1;
    if es != [] {
      StaysTidy(cfg, w, es[..n]);
      AlwaysSound(cfg, w, es[..n]);
      if AlwaysTidy(cfg, w, es[..n]) {
        TidyNow(cfg, w, es[..n]);
        TidyNext(cfg, Run(cfg, w, es[..n]), es[n]);
      }
    }
  }

  lemma TidyNow(cfg: Config, w: World, es: seq<Event>)
    requires Legal(cfg, w, es) && AlwaysTidy(cfg, w, es)
    ensures Tidy(Run(cfg, w, es).disk)
  {
  }

  /** A verified upload of the holder that Append refuses has been saved all the same: its
      file is in the directory, the scan returns its blob, and no transcript names it, so
      the scan is no longer the chain of the transcript.  */
  lemma RefusedUploadLeavesFile(cfg: Config, w: World, r: nat, io: CommitIo)
    requires Sound(cfg, w) && w.lobby.Some? && r in w.uploads
    requires UploadOutcome(cfg, w, r, io).reply == ChainBroken
    ensures var lobby, next, w' := w.lobby.value, w.uploads[r].next, EndUpload(cfg, w, r, io);
            var name := BlobName(|lobby.doc.entries|, cfg.be.hash(next));
            && w'.lobby == w.lobby && w'.disk.doc == w.disk.doc && w'.disk.head == w.disk.head
            && name in w'.disk.blobs && w'.disk.blobs[name] == next && next in Scan(w'.disk)
            && name !in Refs(lobby.doc) && name !in Refs(w.disk.doc.value)
            && !Tidy(w'.disk) && !AllReferenced(w'.disk)
  {
    var lobby, up, w' := w.lobby.value, w.uploads[r], EndUpload(cfg, w, r, io);
    CommitReplies(cfg, lobby, w.disk, up, w.now, io);
    CommitFiles(cfg, lobby, w.disk, up, w.now, io);
    CommitShape(cfg, lobby, w.disk, up, w.now, io);
    NewName(cfg, w, up.next);
    ScanReturns(w'.disk, BlobName(|lobby.doc.entries|, cfg.be.hash(up.next)));
  }

  lemma ScanReturns(disk: Disk, name: string)
    requires name in disk.blobs
    ensures disk.blobs[name] in Scan(disk)
  {
    ScanByName(disk);
    assert name in Members(Listing(disk.blobs.Keys));
    var i :| 0 <= i < |Listing(disk.blobs.Keys)| && Listing(disk.blobs.Keys)[i] == name;
    assert Scan(disk)[i] == disk.blobs[name];
  }
}
