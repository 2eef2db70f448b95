/** From the sequencer's steps to the finalized chain. */
module EndToEnd {
  import opened Basics
  import opened Crypto
  import opened Names
  import opened Transcripts
  import opened Storage
  import opened Protocol
  import opened Safety
  import opened Recovery
  import opened Queue
  import opened Timing
  import opened Tickets
  import opened Identities
  import opened CalmRuns
  import Finalize

  lemma BlankIsSteady(cfg: Config, w: World)
    requires Blank(w)
    ensures Steady(cfg, w)
  {
  }

  /** An empty directory and no process satisfy every invariant of the project. */
  lemma BlankIsFine(cfg: Config, d: Time, w: World)
    requires Blank(w)
    ensures Anchored(cfg, w) && Steady(cfg, w)
    ensures Timed(cfg, w) && Bounded(cfg, d, w) && OneReceiptEach(w) && Averaged(w) && Ticketed(w) && Named(w)
  {
  }

  // ---- what a directory scan returns ----

  lemma BackedRefsAreNumbered(be: Backend, origin: Blob, doc: Document, dir: map<string, Blob>)
    requires Backed(be, origin, doc, dir)
    ensures Numbered(Refs(doc)) && Members(Refs(doc)) <= dir.Keys
  {
    var chain, refs := ChainOf(origin, doc, dir), Refs(doc);
    forall i | 0 <= i < |refs| ensures IsNameOf(i, refs[i]) && refs[i] in dir {
      assert BackedAt(be, chain, doc, dir, i);
    }
  }

  /** In every reachable world, whatever failed: the directory scan reads the files in
      the order of the durable transcript exactly when there are no unreferenced files
      and at most a hundred thousand entries; and then it returns the chain.  */
  lemma ScanReadsTranscript(cfg: Config, w: World)
    requires Sound(cfg, w) && w.disk.doc.Some?
    ensures var doc, keys := w.disk.doc.value, w.disk.blobs.Keys;
            && (Listing(keys) == Refs(doc) <==> keys <= Members(Refs(doc)) && |doc.entries| <= 100000)
            && (Listing(keys) == Refs(doc) ==> Scan(w.disk) == ChainOf(w.log.origin, doc, w.disk.blobs)[1..])
  {
    var doc := w.disk.doc.value;
    BackedRefsAreNumbered(cfg.be, w.log.origin, doc, w.disk.blobs);
    ScanIsChain(Refs(doc), w.disk.blobs.Keys);
    if Listing(w.disk.blobs.Keys) == Refs(doc) {
      forall i | 0 <= i < |doc.entries| ensures doc.entries[i].blobRef in w.disk.blobs {
        assert Refs(doc)[i] in Members(Refs(doc));
      }
      assert Scan(w.disk) == ChainOf(w.log.origin, doc, w.disk.blobs)[1..];
    }
  }

  /** Every file is named by an entry, and there are not too many for the name order. */
  ghost predicate AllReferenced(disk: Disk)
    requires disk.doc.Some?
  {
    disk.blobs.Keys <= Members(Refs(disk.doc.value)) && |disk.doc.value.entries| <= 100000
  }

  /** A verified path from an unchallenged blob never comes to a blob twice. */
  lemma PathsDoNotRepeat(be: Backend, path: seq<Blob>, i: nat, j: nat)
    requires be.CollisionFree() && be.Binding() && path != [] && be.challenge(path[0]) == None
    requires be.Linked(path) && i < |path| && j < |path| && path[i] == path[j]
    ensures i == j
  {
    be.HeadDeterminesHistory(path[..i + 1], path[..j + 1], path[0], path[i]);
    assert |path[..i + 1]| == i + 1 && |path[..j + 1]| == j + 1;
  }

  ghost predicate Unrepeated(blobs: seq<Blob>) {
    forall i, j :: 0 <= i < |blobs| && 0 <= j < |blobs| && blobs[i] == blobs[j] ==> i == j
  }

  lemma ChainUnrepeated(be: Backend, chain: seq<Blob>)
    requires be.CollisionFree() && be.Binding() && chain != [] && be.challenge(chain[0]) == None && be.Linked(chain)
    ensures Unrepeated(chain[1..])
  {
    var blobs := chain[1..];
    forall i, j | 0 <= i < |blobs| && 0 <= j < |blobs| && blobs[i] == blobs[j] ensures i == j {
      PathsDoNotRepeat(be, chain, i + 1, j + 1);
    }
  }

  /** The directory holds these blobs under these names. */
  ghost predicate StoredUnder(names: seq<string>, blobs: seq<Blob>, dir: map<string, Blob>) {
    |names| == |blobs| && forall i :: 0 <= i < |names| ==> names[i] in dir && dir[names[i]] == blobs[i]
  }

  /** Names under which a directory holds the same unrepeated blobs are the same names. */
  lemma SameBlobsSameNames(names: seq<string>, refs: seq<string>, dir: map<string, Blob>, blobs: seq<Blob>)
    requires StoredUnder(names, blobs, dir) && StoredUnder(refs, blobs, dir) && Unrepeated(blobs)
    requires Members(names) == dir.Keys
    ensures names == refs
  {
    forall i | 0 <= i < |refs| ensures names[i] == refs[i] {
      assert refs[i] in Members(names);
      var k :| 0 <= k < |names| && names[k] == refs[i];
      assert blobs[k] == blobs[i];
    }
  }

  /** The directory scan returns the chain of the durable transcript exactly when every
      file is referenced and there are at most a hundred thousand entries.  */
  lemma ScanReturnsChain(cfg: Config, w: World)
    requires Sound(cfg, w) && w.disk.doc.Some?
    requires cfg.be.CollisionFree() && cfg.be.Binding() && cfg.be.challenge(w.log.origin) == None
    ensures AllReferenced(w.disk) <==>
      [w.log.origin] + Scan(w.disk) == ChainOf(w.log.origin, w.disk.doc.value, w.disk.blobs)
  {
    var chain := ChainOf(w.log.origin, w.disk.doc.value, w.disk.blobs);
    ScanReadsTranscript(cfg, w);
    BackedRefsAreNumbered(cfg.be, w.log.origin, w.disk.doc.value, w.disk.blobs);
    ScanIsChain(Refs(w.disk.doc.value), w.disk.blobs.Keys);
    if AllReferenced(w.disk) {
      assert [w.log.origin] + chain[1..] == chain;
    }
    if [w.log.origin] + Scan(w.disk) == chain {
      assert Scan(w.disk) == chain[1..];
      ChainNamesFiles(cfg, w);
    }
  }

  lemma ChainNamesFiles(cfg: Config, w: World)
    requires Sound(cfg, w) && w.disk.doc.Some?
    requires cfg.be.CollisionFree() && cfg.be.Binding() && cfg.be.challenge(w.log.origin) == None
    requires Scan(w.disk) == ChainOf(w.log.origin, w.disk.doc.value, w.disk.blobs)[1..]
    ensures Listing(w.disk.blobs.Keys) == Refs(w.disk.doc.value)
  {
    var doc := w.disk.doc.value;
    var chain := ChainOf(w.log.origin, doc, w.disk.blobs);
    ChainRefs(cfg.be, w.log.origin, doc, w.disk.blobs);
    ChainUnrepeated(cfg.be, chain);
    ScanByName(w.disk);
    SameBlobsSameNames(Listing(w.disk.blobs.Keys), Refs(doc), w.disk.blobs, chain[1..]);
  }

  lemma ChainRefs(be: Backend, origin: Blob, doc: Document, dir: map<string, Blob>)
    requires Backed(be, origin, doc, dir)
    ensures StoredUnder(Refs(doc), ChainOf(origin, doc, dir)[1..], dir)
  {
    forall i: nat | i < |doc.entries| ensures doc.entries[i].blobRef in dir {
      assert BackedAt(be, ChainOf(origin, doc, dir), doc, dir, i);
    }
  }

  lemma ScanByName(disk: Disk)
    ensures StoredUnder(Listing(disk.blobs.Keys), Scan(disk), disk.blobs)
  {
    var names := Listing(disk.blobs.Keys);
    forall i | 0 <= i < |names| ensures names[i] in disk.blobs {
      assert names[i] in Members(names);
    }
  }

  /** What the finalizer sees of a directory, from the init head of its transcript: the
      scanned blobs are linked and end in the tail of the durable transcript exactly
      when every file is referenced and there are at most a hundred thousand.  */
  lemma ScanLinksToTail(cfg: Config, w: World)
    requires Sound(cfg, w) && w.disk.doc.Some?
    requires cfg.be.CollisionFree() && cfg.be.Binding() && cfg.be.challenge(w.log.origin) == None
    ensures var path := [w.log.origin] + Scan(w.disk);
            AllReferenced(w.disk) <==>
              cfg.be.Linked(path) && path[|path| - 1] == TailBlob(w.log.origin, w.disk.doc.value, w.disk.blobs)
  {
    var path, chain := [w.log.origin] + Scan(w.disk), ChainOf(w.log.origin, w.disk.doc.value, w.disk.blobs);
    ScanReturnsChain(cfg, w);
    if cfg.be.Linked(path) && path[|path| - 1] == chain[|chain| - 1] {
      cfg.be.HeadDeterminesHistory(path, chain, w.log.origin, chain[|chain| - 1]);
    }
  }

  /** Following the refs rebuilds a verified chain even when a scan would not. */
  lemma RefsRebuildChain(cfg: Config, w: World, i: nat)
    requires Sound(cfg, w) && w.disk.doc.Some? && i < |w.disk.doc.value.entries|
    ensures var doc, dir, be := w.disk.doc.value, w.disk.blobs, cfg.be;
            var e := doc.entries[i];
            && e.blobRef in dir && be.Sha(dir[e.blobRef]) == e.newSha
            && (i == 0 ==> be.stepOK(w.log.origin, dir[e.blobRef]))
            && (i > 0 ==>
                  && doc.entries[i - 1].blobRef in dir
                  && be.stepOK(dir[doc.entries[i - 1].blobRef], dir[e.blobRef]))
  {
    var chain := ChainOf(w.log.origin, w.disk.doc.value, w.disk.blobs);
    assert BackedAt(cfg.be, chain, w.disk.doc.value, w.disk.blobs, i);
    assert i > 0 ==> BackedAt(cfg.be, chain, w.disk.doc.value, w.disk.blobs, i - 1);
    assert cfg.be.stepOK(chain[i], chain[i + 1]);
  }

  lemma ScanOfFiled(names: seq<string>, blobs: seq<Blob>, disk: Disk)
    requires Filed(names, blobs, disk.blobs) && Numbered(names) && |names| <= 100000
    ensures Scan(disk) == blobs
  {
    ScanIsChain(names, disk.blobs.Keys);
  }

  lemma FileNamesNumbered(be: Backend, acks: seq<Ack>)
    ensures Numbered(FileNames(be, acks))
  {
    forall i | 0 <= i < |acks| ensures IsNameOf(i, FileNames(be, acks)[i]) {
      assert FileNames(be, acks)[i] == BlobName(i, be.hash(acks[i].next));
    }
  }

  /** Up to a hundred thousand contributions, the directory scan returns exactly the
      accepted blobs in order, each is a verified step from the one before, starting
      from the init head, and the last one is the sequencer's head.  */
  ghost predicate ScansAsVerifiedChain(cfg: Config, w: World) {
    w.disk.doc.Some? && |w.log.acks| <= 100000 ==>
      var chain := [w.log.origin] + Scan(w.disk);
      && Scan(w.disk) == AcceptedBlobs(w.log.acks)
      && cfg.be.Linked(chain)
      && w.disk.head == Some(chain[|chain| - 1])
      && (w.lobby.Some? ==> w.lobby.value.head == chain[|chain| - 1])
  }

  lemma SettledChain(cfg: Config, w: World)
    requires Settled(cfg, w)
    ensures ScansAsVerifiedChain(cfg, w)
  {
    if w.disk.doc.Some? && |w.log.acks| <= 100000 {
      var hist := History(w.log.origin, w.log.acks);
      assert hist[1..] == AcceptedBlobs(w.log.acks);
      FileNamesNumbered(cfg.be, w.log.acks);
      ScanOfFiled(FileNames(cfg.be, w.log.acks), AcceptedBlobs(w.log.acks), w.disk);
    }
  }

  /** End to end: after any run whose writes succeed, in any interleaving, the directory
      scan returns the verified chain of the accepted contributions.  */
  lemma RunEndsInVerifiedChain(cfg: Config, w: World, es: seq<Event>)
    requires Blank(w) && Legal(cfg, w, es) && CalmRun(es)
    ensures ScansAsVerifiedChain(cfg, Run(cfg, w, es))
  {
    BlankIsSteady(cfg, w);
    AlwaysSteady(cfg, w, es);
    SettledChain(cfg, Run(cfg, w, es));
  }

  /** Loading the chain from the directory and finalizing it. */
  method LoadAndFinalize(be: Backend, init: Blob, store: LocalStorage, listing: seq<string>)
    returns (r: Result<Blob, Finalize.Failure>)
    requires Distinct(listing) && Members(listing) == store.blobs.Keys
    ensures var chain := [init] + Scan(store.Contents());
            && (r.Ok? <==> |chain| > 1 && be.Linked(chain))
            && (r.Ok? ==> r.value == chain[|chain| - 1])
  {
    var chain := store.LoadChain(listing, {});
    var blobs := chain.value;
    var files: seq<Option<Blob>> := seq(|blobs|, i requires 0 <= i < |blobs| => Some(blobs[i]));
    assert Finalize.Contents(files, init) == blobs;
    r := Finalize.FinalizeStream(be, init, files);
  }

  /** Finalization of what a run left, started from the same init head: it accepts
      every link and ends in the sequencer's head, unless there is nothing to finalize.  */
  method FinalizeRun(cfg: Config, store: LocalStorage, listing: seq<string>, init: Blob,
                     ghost w: World, ghost es: seq<Event>)
    returns (r: Result<Blob, Finalize.Failure>)
    requires Distinct(listing) && Members(listing) == store.blobs.Keys
    requires Blank(w) && Legal(cfg, w, es) && CalmRun(es)
    requires store.Contents() == Run(cfg, w, es).disk && store.transcript.Some?
    requires |Run(cfg, w, es).log.acks| <= 100000 && init == Run(cfg, w, es).log.origin
    ensures r.Ok? <==> Run(cfg, w, es).log.acks != []
    ensures r.Ok? ==> store.head == Some(r.value)
  {
    RunEndsInVerifiedChain(cfg, w, es);
    r := LoadAndFinalize(cfg.be, init, store, listing);
  }

  /** Finalization of what any run left, whatever failed, crashed and restarted, from the
      init head of the durable transcript: it succeeds and ends in the last contribution
      of that transcript exactly when there is one, every file is referenced and there
      are at most a hundred thousand; and that is the durable head if the two agree.  */
  method FinalizeAnyRun(cfg: Config, store: LocalStorage, listing: seq<string>, init: Blob,
                        ghost w: World, ghost es: seq<Event>)
    returns (r: Result<Blob, Finalize.Failure>)
    requires Distinct(listing) && Members(listing) == store.blobs.Keys
    requires Blank(w) && Legal(cfg, w, es)
    requires store.Contents() == Run(cfg, w, es).disk && store.transcript.Some?
    requires init == Run(cfg, w, es).log.origin
    requires cfg.be.CollisionFree() && cfg.be.Binding() && cfg.be.challenge(init) == None
    ensures r.Ok? && cfg.be.Sha(r.value) == store.transcript.value.Tail() <==> Finalizable(store.Contents())
    ensures store.head.Some? && cfg.be.Sha(store.head.value) == store.transcript.value.Tail() ==>
      (r.Ok? && store.head == Some(r.value) <==> Finalizable(store.Contents()))
  {
    BlankIsFine(cfg, 0, w);
    AlwaysSound(cfg, w, es);
    FinalizableIff(cfg, Run(cfg, w, es));
    r := LoadAndFinalize(cfg.be, init, store, listing);
    if r.Ok? && store.head.Some? && cfg.be.Sha(r.value) == cfg.be.Sha(store.head.value) {
      cfg.be.SameSha(r.value, store.head.value);
    }
  }

  /** There are entries, and the directory scan finds their blobs and no others. */
  ghost predicate Finalizable(disk: Disk) {
    disk.doc.Some? && disk.doc.value.entries != [] && AllReferenced(disk)
  }

  lemma FinalizableIff(cfg: Config, w: World)
    requires Sound(cfg, w) && w.disk.doc.Some?
    requires cfg.be.CollisionFree() && cfg.be.Binding() && cfg.be.challenge(w.log.origin) == None
    ensures var path := [w.log.origin] + Scan(w.disk);
            Finalizable(w.disk) <==>
              |path| > 1 && cfg.be.Linked(path) && cfg.be.Sha(path[|path| - 1]) == w.disk.doc.value.Tail()
  {
    var path, doc := [w.log.origin] + Scan(w.disk), w.disk.doc.value;
    var tail := TailBlob(w.log.origin, doc, w.disk.blobs);
    BackedIsChained(cfg.be, w.log.origin, doc, w.disk.blobs);
    ScanReturnsChain(cfg, w);
    ScanLinksToTail(cfg, w);
    if cfg.be.Sha(path[|path| - 1]) == cfg.be.Sha(tail) {
      cfg.be.SameSha(path[|path| - 1], tail);
    }
  }

  /** A process that dies right after saving a verified blob leaves a directory that the
      finalizer accepts with that blob as its last contribution, although no transcript
      and no receipt names it.  */
  lemma CrashedBlobIsFinalized(cfg: Config, w: World, r: nat, io: CommitIo)
    requires Sound(cfg, w) && w.lobby.Some? && w.disk.doc == Some(w.lobby.value.doc) && r in w.uploads
    requires AllReferenced(w.disk) && |w.disk.doc.value.entries| < 100000 && io.blob.GoodThenCrash?
    requires w.lobby.value.Holds(w.uploads[r].session.id) && cfg.be.stepOK(w.uploads[r].prevHead, w.uploads[r].next)
    requires w.uploads[r].prevHead == TailBlob(w.log.origin, w.disk.doc.value, w.disk.blobs)
    ensures var w' := EndUpload(cfg, w, r, io);
            && w'.disk.doc == w.disk.doc && w'.log.acks == w.log.acks
            && Scan(w'.disk) == Scan(w.disk) + [w.uploads[r].next]
            && cfg.be.Linked([w.log.origin] + Scan(w'.disk))
  {
    var w', doc, next := EndUpload(cfg, w, r, io), w.disk.doc.value, w.uploads[r].next;
    assert w'.disk == w.disk.(blobs := w.disk.blobs[BlobName(|doc.entries|, cfg.be.hash(next)) := next]);
    ScanAfterSave(cfg, w, w'.disk, next);
  }

  lemma ScanAfterSave(cfg: Config, w: World, disk': Disk, next: Blob)
    requires Sound(cfg, w) && w.disk.doc.Some? && AllReferenced(w.disk) && |w.disk.doc.value.entries| < 100000
    requires cfg.be.stepOK(TailBlob(w.log.origin, w.disk.doc.value, w.disk.blobs), next)
    requires disk'.blobs == w.disk.blobs[BlobName(|w.disk.doc.value.entries|, cfg.be.hash(next)) := next]
    ensures Scan(disk') == Scan(w.disk) + [next] && cfg.be.Linked([w.log.origin] + Scan(disk'))
  {
    var doc, dir := w.disk.doc.value, w.disk.blobs;
    var chain := ChainOf(w.log.origin, doc, dir);
    ListingAfterSave(cfg, w, cfg.be.hash(next));
    ScanReadsTranscript(cfg, w);
    ScanOfMore(w.disk, disk', Refs(doc), BlobName(|doc.entries|, cfg.be.hash(next)), next);
    LinkedGrows(cfg.be, chain, next);
    LongerPath(chain, next);
  }

  lemma LongerPath(chain: seq<Blob>, next: Blob)
    requires chain != []
    ensures [chain[0]] + (chain[1..] + [next]) == chain + [next]
  {
  }

  lemma ListingAfterSave(cfg: Config, w: World, h: Digest)
    requires Sound(cfg, w) && w.disk.doc.Some? && AllReferenced(w.disk) && |w.disk.doc.value.entries| < 100000
    ensures var refs, name := Refs(w.disk.doc.value), BlobName(|w.disk.doc.value.entries|, h);
            && name !in refs && Listing(w.disk.blobs.Keys) == refs
            && Listing(w.disk.blobs.Keys + {name}) == refs + [name]
  {
    var doc, dir := w.disk.doc.value, w.disk.blobs;
    UnreachedName(cfg.be, w.log.origin, doc, dir, |doc.entries|, h);
    BackedRefsAreNumbered(cfg.be, w.log.origin, doc, dir);
    ListingGrows(Refs(doc), dir.Keys, BlobName(|doc.entries|, h), h);
  }

  lemma ListingGrows(refs: seq<string>, keys: set<string>, name: string, h: Digest)
    requires Numbered(refs) && keys == Members(refs) && |refs| < 100000 && name == BlobName(|refs|, h)
    ensures Listing(keys) == refs && Listing(keys + {name}) == refs + [name]
  {
    assert IsNameOf(|refs|, name);
    MoreNumbered(refs, name);
    ScanIsChain(refs, keys);
    ScanIsChain(refs + [name], keys + {name});
  }

  lemma MoreNumbered(refs: seq<string>, name: string)
    requires Numbered(refs) && IsNameOf(|refs|, name)
    ensures Numbered(refs + [name]) && Members(refs + [name]) == Members(refs) + {name}
  {
  }

  lemma ScanOfMore(disk: Disk, disk': Disk, refs: seq<string>, name: string, b: Blob)
    requires Listing(disk.blobs.Keys) == refs && name !in refs && disk'.blobs == disk.blobs[name := b]
    requires Listing(disk.blobs.Keys + {name}) == refs + [name]
    ensures Scan(disk') == Scan(disk) + [b]
  {
    assert disk'.blobs.Keys == disk.blobs.Keys + {name};
    ScanByName(disk);
    ScanByName(disk');
  }

  // ---- restarts and histories ----

  /** Curve, circuit and init hash of a transcript. */
  function Header(doc: Document): Document {
    doc.(entries := [])
  }

  /** A start that replaces the transcript gives it the same header and init head. */
  predicate SparesHeader(cfg: Config, w: World, e: Event)
    requires w.disk.doc.Some?
  {
    e.StartUp? && Replaces(w, e.startIo) ==>
      e.init == w.log.origin && EmptyDocument(cfg.be, e.init, e.circuit) == Header(w.disk.doc.value)
  }

  /** The disk holds a transcript of this header and init head. */
  predicate Headed(w: World, header: Document, origin: Blob) {
    w.disk.doc.Some? && Header(w.disk.doc.value) == header && w.log.origin == origin
  }

  lemma HeaderNext(cfg: Config, w: World, e: Event)
    requires Enabled(w, e) && w.disk.doc.Some? && (w.lobby.Some? ==> w.lobby.value.doc.Extends(w.disk.doc.value))
    ensures Headed(Next(cfg, w, e), Header(w.disk.doc.value), w.log.origin) <==> SparesHeader(cfg, w, e)
  {
    if e.UploadEnd? {
      CommitShape(cfg, w.lobby.value, w.disk, w.uploads[e.req], w.now, e.io);
    } else if !e.StartUp? {
      OthersKeepRecord(cfg, w, e);
    }
  }

  lemma HeaderFirst(cfg: Config, w: World, e: Event)
    requires Enabled(w, e) && w.lobby.None? && w.disk.doc.None? && Next(cfg, w, e).disk.doc.Some?
    ensures e.StartUp? && Next(cfg, w, e).log.origin == e.init
    ensures Next(cfg, w, e).disk.doc == Some(EmptyDocument(cfg.be, e.init, e.circuit))
  {
  }

  /** At every point of the run the disk holds a transcript of this header and init head. */
  ghost predicate AlwaysHeaded(cfg: Config, w: World, es: seq<Event>, header: Document, origin: Blob)
    requires Legal(cfg, w, es)
    decreases |es|
  {
    && Headed(Run(cfg, w, es), header, origin)
    && (es != [] ==> AlwaysHeaded(cfg, w, es[..|es| - 1], header, origin))
  }

  ghost predicate AlwaysSparesHeader(cfg: Config, w: World, es: seq<Event>)
    requires Legal(cfg, w, es)
    decreases |es|
  {
    es != [] ==>
      var n := |es| - 1;
      var v := Run(cfg, w, es[..n]);
      AlwaysSparesHeader(cfg, w, es[..n]) && v.disk.doc.Some? && SparesHeader(cfg, v, es[n])
  }

  /** Curve, circuit, init hash and init head stay those of the first start, whatever
      fails, crashes and init head is passed on resume, exactly as long as no start
      replaces the transcript by one with another.  */
  lemma {:induction false} HeaderFixed(cfg: Config, w: World, es: seq<Event>)
    requires Sound(cfg, w) && cfg.be.CollisionFree() && Legal(cfg, w, es) && w.disk.doc.Some?
    ensures AlwaysHeaded(cfg, w, es, Header(w.disk.doc.value), w.log.origin) <==> AlwaysSparesHeader(cfg, w, es)
    decreases |es|
  {
    var n, header := |es| - 1, Header(w.disk.doc.value);
    if es != [] {
      HeaderFixed(cfg, w, es[..n]);
      if AlwaysHeaded(cfg, w, es[..n], header, w.log.origin) {
        HeadedNow(cfg, w, es[..n], header, w.log.origin);
        AlwaysSound(cfg, w, es[..n]);
        HeaderNext(cfg, Run(cfg, w, es[..n]), es[n]);
      }
    }
  }

  lemma HeadedNow(cfg: Config, w: World, es: seq<Event>, header: Document, origin: Blob)
    requires Legal(cfg, w, es) && AlwaysHeaded(cfg, w, es, header, origin)
    ensures Headed(Run(cfg, w, es), header, origin)
  {
  }

  lemma {:induction false} CurveFixed(cfg: Config, w: World, es: seq<Event>)
    requires Steady(cfg, w) && w.disk.doc.None? && Legal(cfg, w, es) && CalmRun(es)
    ensures var doc := Run(cfg, w, es).disk.doc;
            doc.Some? ==> doc.value.curve == cfg.be.curveName
    decreases |es|
  {
    var n := |es| - 1;
    if es != [] {
      CurveFixed(cfg, w, es[..n]);
      AlwaysSteady(cfg, w, es[..n]);
      var v := Run(cfg, w, es[..n]);
      if v.disk.doc.Some? {
        HeaderNext(cfg, v, es[n]);
      } else if Run(cfg, w, es).disk.doc.Some? {
        HeaderFirst(cfg, v, es[n]);
      }
    }
  }

  /** Restarts are invisible: two runs whose writes succeed and that accepted the same
      uploads from the same init head leave the same disk, whatever crashes, restarts
      and init heads offered on resume either run saw.  */
  lemma RestartTransparent(cfg: Config, w1: World, es1: seq<Event>, w2: World, es2: seq<Event>)
    requires Blank(w1) && Legal(cfg, w1, es1) && CalmRun(es1)
    requires Blank(w2) && Legal(cfg, w2, es2) && CalmRun(es2)
    requires SameCeremony(Run(cfg, w1, es1), Run(cfg, w2, es2))
    ensures Run(cfg, w1, es1).disk == Run(cfg, w2, es2).disk
  {
    BlankIsSteady(cfg, w1);
    BlankIsSteady(cfg, w2);
    AlwaysSteady(cfg, w1, es1);
    AlwaysSteady(cfg, w2, es2);
    CurveFixed(cfg, w1, es1);
    CurveFixed(cfg, w2, es2);
    SettledSame(cfg, Run(cfg, w1, es1), Run(cfg, w2, es2));
  }

  /** Two ceremonies for one circuit from one init head that accepted the same uploads. */
  ghost predicate SameCeremony(a: World, b: World) {
    && a.disk.doc.Some? && b.disk.doc.Some? && a.log.origin == b.log.origin
    && a.disk.doc.value.circuit == b.disk.doc.value.circuit
    && |a.log.acks| == |b.log.acks|
    && forall i :: 0 <= i < |a.log.acks| ==> SameUpload(a.log.acks[i], b.log.acks[i])
  }

  predicate SameUpload(a: Ack, b: Ack) {
    a.session.who == b.session.who && a.next == b.next && a.at == b.at
  }

  lemma SettledSame(cfg: Config, a: World, b: World)
    requires Settled(cfg, a) && Settled(cfg, b) && SameCeremony(a, b)
    requires a.disk.doc.value.curve == b.disk.doc.value.curve
    ensures a.disk == b.disk
  {
    var acks, acks' := a.log.acks, b.log.acks;
    SameLedger(cfg.be, a.log.origin, acks, acks');
    ArchivesUnique(cfg.be, History(a.log.origin, acks), Ledger(cfg.be, a.log.origin, acks), FileNames(cfg.be, acks),
                   a.disk, b.disk);
  }

  lemma ArchivesUnique(be: Backend, hist: seq<Blob>, ledger: seq<Entry>, names: seq<string>, d1: Disk, d2: Disk)
    requires Archives(be, hist, ledger, names, d1) && Archives(be, hist, ledger, names, d2)
    requires d1.doc.value.curve == d2.doc.value.curve && d1.doc.value.circuit == d2.doc.value.circuit
    ensures d1 == d2
  {
    FiledUnique(names, hist[1..], d1.blobs, d2.blobs);
  }

  /** What a ceremony leaves is computed from its uploads alone. */
  lemma SameLedger(be: Backend, origin: Blob, acks: seq<Ack>, acks': seq<Ack>)
    requires |acks| == |acks'| && forall i :: 0 <= i < |acks| ==> SameUpload(acks[i], acks'[i])
    ensures History(origin, acks) == History(origin, acks')
    ensures Ledger(be, origin, acks) == Ledger(be, origin, acks')
    ensures FileNames(be, acks) == FileNames(be, acks')
  {
    assert AcceptedBlobs(acks) == AcceptedBlobs(acks');
    forall i | 0 <= i < |acks|
      ensures Ledger(be, origin, acks)[i] == Ledger(be, origin, acks')[i]
      ensures FileNames(be, acks)[i] == FileNames(be, acks')[i]
    {
      assert SameUpload(acks[i], acks'[i]);
    }
  }

  lemma FiledUnique(names: seq<string>, blobs: seq<Blob>, d1: map<string, Blob>, d2: map<string, Blob>)
    requires Filed(names, blobs, d1) && Filed(names, blobs, d2)
    ensures d1 == d2
  {
    forall n | n in d1.Keys ensures d1[n] == d2[n] {
      assert n in Members(names);
    }
  }

  /** The head determines its history: two ceremonies over one init head that ended in
      the same head accepted the same contributions.  */
  lemma SameHeadSameCeremony(cfg: Config, a: World, b: World)
    requires cfg.be.CollisionFree() && cfg.be.Binding() && cfg.be.challenge(a.log.origin) == None
    requires Settled(cfg, a) && Settled(cfg, b) && a.disk.doc.Some? && b.disk.doc.Some?
    requires a.log.origin == b.log.origin && a.disk.head == b.disk.head
    ensures AcceptedBlobs(a.log.acks) == AcceptedBlobs(b.log.acks)
  {
    var p, q := History(a.log.origin, a.log.acks), History(b.log.origin, b.log.acks);
    cfg.be.HeadDeterminesHistory(p, q, a.log.origin, a.disk.head.value);
    assert AcceptedBlobs(a.log.acks) == p[1..] && AcceptedBlobs(b.log.acks) == q[1..];
  }

  /** In any run, whatever failed, the last hash pins the whole transcript: two backed
      transcripts with one init hash and one tail hash record the same contributions.  */
  lemma TailHashPinsTranscript(be: Backend, o1: Blob, d1: Document, dir1: map<string, Blob>,
                               o2: Blob, d2: Document, dir2: map<string, Blob>)
    requires be.CollisionFree() && be.Binding() && be.challenge(o1) == None
    requires Backed(be, o1, d1, dir1) && Backed(be, o2, d2, dir2)
    requires d1.initHash == d2.initHash && d1.Tail() == d2.Tail()
    ensures |d1.entries| == |d2.entries|
    ensures forall i :: 0 <= i < |d1.entries| ==> SameRecordAt(d1, d2, i)
  {
    var p, q := ChainOf(o1, d1, dir1), ChainOf(o2, d2, dir2);
    BackedIsChained(be, o1, d1, dir1);
    BackedIsChained(be, o2, d2, dir2);
    be.SameSha(o1, o2);
    be.SameSha(p[|d1.entries|], q[|d2.entries|]);
    be.HeadDeterminesHistory(p, q, o1, p[|d1.entries|]);
    forall i: nat | i < |d1.entries| ensures SameRecordAt(d1, d2, i) {
      assert BackedAt(be, p, d1, dir1, i) && BackedAt(be, q, d2, dir2, i);
    }
  }

  predicate SameRecordAt(d1: Document, d2: Document, i: nat)
    requires i < |d1.entries| && i < |d2.entries|
  {
    var a, b := d1.entries[i], d2.entries[i];
    a.index == b.index && a.prevSha == b.prevSha && a.newSha == b.newSha && a.blobRef == b.blobRef
  }

  // ---- entries and receipts ----

  /** When writes succeed there is one entry a receipt, hence one a session. */
  lemma OneEntryAReceipt(cfg: Config, w: World, es: seq<Event>)
    requires Blank(w) && Legal(cfg, w, es) && CalmRun(es)
    ensures var w' := Run(cfg, w, es);
            w'.disk.doc.Some? ==>
              && |w'.disk.doc.value.entries| == |w'.log.acks|
              && forall i, j :: 0 <= i < j < |w'.log.acks| ==> w'.log.acks[i].session.id != w'.log.acks[j].session.id
  {
    BlankIsFine(cfg, 0, w);
    AlwaysSteady(cfg, w, es);
    AtMostOneReceipt(cfg, w, es);
  }

  /** A crash in the next commit leaves a file that a scan returns and no entry names. */
  lemma CrashLeavesUnreferencedBlob(cfg: Config, w: World, r: nat)
    requires Steady(cfg, w) && w.lobby.Some? && r in w.uploads
    requires w.lobby.value.Holds(w.uploads[r].session.id) && cfg.be.stepOK(w.uploads[r].prevHead, w.uploads[r].next)
    ensures var w' := EndUpload(cfg, w, r, CommitIo(GoodThenCrash, Good, Good));
            && w'.disk.doc == w.disk.doc && w'.disk.head == w.disk.head
            && Listing(w'.disk.blobs.Keys) != Refs(w'.disk.doc.value)
  {
    var w', n := EndUpload(cfg, w, r, CommitIo(GoodThenCrash, Good, Good)), |w.log.acks|;
    var name := BlobName(n, cfg.be.hash(w.uploads[r].next));
    assert name in w'.disk.blobs.Keys;
    NewFileName(cfg.be, w.log.acks, Ack(w.uploads[r].session, w.uploads[r].next, 0, Receipt(0, "", "", "")));
    assert Refs(w.disk.doc.value) == FileNames(cfg.be, w.log.acks);
    assert name !in Members(Refs(w.disk.doc.value));
  }
}
