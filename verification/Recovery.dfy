/** Receipts and heads through crashes and restarts. */
module Recovery {
  import opened Basics
  import opened Crypto
  import opened Transcripts
  import opened Protocol
  import opened Safety

  /** The document holds this receipt's contribution at its index. */
  predicate Records(doc: Document, r: Receipt) {
    && r.index < |doc.entries|
    && doc.entries[r.index].prevSha == r.prevSha
    && doc.entries[r.index].newSha == r.newSha
    && doc.entries[r.index].blobRef == r.blobRef
  }

  ghost predicate ReceiptsKept(w: World) {
    forall a :: a in w.log.acks ==> w.disk.doc.Some? && Records(w.disk.doc.value, a.receipt)
  }

  /** Each head is reachable from the tail of its transcript by verified steps. */
  ghost predicate HeadsReachable(cfg: Config, w: World) {
    && DurableHeadReachable(cfg, w)
    && (w.lobby.Some? ==>
          cfg.be.Reach(TailBlob(w.log.origin, w.lobby.value.doc, w.disk.blobs), w.lobby.value.head))
  }

  ghost predicate DurableHeadReachable(cfg: Config, w: World) {
    w.disk.doc.Some? ==>
      && w.disk.head.Some?
      && cfg.be.Reach(TailBlob(w.log.origin, w.disk.doc.value, w.disk.blobs), w.disk.head.value)
  }

  ghost predicate Anchored(cfg: Config, w: World) {
    Sound(cfg, w) && ReceiptsKept(w) && HeadsReachable(cfg, w)
  }

  lemma ExtensionRecords(doc: Document, earlier: Document, r: Receipt)
    requires doc.Extends(earlier) && Records(earlier, r)
    ensures Records(doc, r)
  {
  }

  lemma ReceiptsUpload(cfg: Config, w: World, r: nat, io: CommitIo)
    requires Sound(cfg, w) && ReceiptsKept(w) && w.lobby.Some? && r in w.uploads
    ensures ReceiptsKept(EndUpload(cfg, w, r, io))
  {
    var lobby, up, w' := w.lobby.value, w.uploads[r], EndUpload(cfg, w, r, io);
    CommitShape(cfg, lobby, w.disk, up, w.now, io);
    var doc' := w'.disk.doc.value;
    assert doc'.Extends(w.disk.doc.value);
    forall a | a in w.log.acks ensures Records(doc', a.receipt) {
      ExtensionRecords(doc', w.disk.doc.value, a.receipt);
    }
  }

  lemma HeadsUpload(cfg: Config, w: World, r: nat, io: CommitIo)
    requires Sound(cfg, w) && HeadsReachable(cfg, w) && cfg.be.CollisionFree() && w.lobby.Some? && r in w.uploads
    ensures HeadsReachable(cfg, EndUpload(cfg, w, r, io))
  {
    var be, lobby, up, w' := cfg.be, w.lobby.value, w.uploads[r], EndUpload(cfg, w, r, io);
    CommitShape(cfg, lobby, w.disk, up, w.now, io);
    if CommitAppends(cfg, lobby, up, io) {
      CommitGrows(cfg, w, r, io);
      HeadsAppended(cfg, w, lobby.doc.Append(NewEntry(be, lobby, up, w.now)).value, up.next, w');
    } else {
      SavedOnly(cfg, w, up.next);
      HeadsSaved(cfg, w, w');
    }
  }

  /** After an append the live tail is the new head, whichever writes succeeded. */
  lemma HeadsAppended(cfg: Config, w: World, live: Document, next: Blob, w': World)
    requires w.disk.doc.Some? && w.disk.head.Some? && live.Extends(w.disk.doc.value)
    requires w'.log.origin == w.log.origin && Backed(cfg.be, w.log.origin, live, w'.disk.blobs)
    requires TailBlob(w.log.origin, live, w'.disk.blobs) == next
    requires cfg.be.Reach(TailBlob(w.log.origin, w.disk.doc.value, w'.disk.blobs), w.disk.head.value)
    requires w'.lobby.Some? ==> w'.lobby.value.doc == live && w'.lobby.value.head == next
    requires (w'.disk.doc == w.disk.doc && w'.disk.head == w.disk.head)
          || (w'.disk.head == Some(next) && (w'.disk.doc == w.disk.doc || w'.disk.doc == Some(live)))
    ensures HeadsReachable(cfg, w')
  {
    cfg.be.ReachSelf(next);
    BackedPrefix(cfg.be, w.log.origin, live, w.disk.doc.value, w'.disk.blobs);
  }

  lemma HeadsSaved(cfg: Config, w: World, w': World)
    requires HeadsReachable(cfg, w) && w.lobby.Some? && w.disk.doc.Some?
    requires w'.disk.doc == w.disk.doc && w'.disk.head == w.disk.head && w'.log.origin == w.log.origin
    requires w'.lobby.Some? ==> w'.lobby.value.doc == w.lobby.value.doc && w'.lobby.value.head == w.lobby.value.head
    requires ChainOf(w.log.origin, w.lobby.value.doc, w'.disk.blobs)
          == ChainOf(w.log.origin, w.lobby.value.doc, w.disk.blobs)
    requires ChainOf(w.log.origin, w.disk.doc.value, w'.disk.blobs)
          == ChainOf(w.log.origin, w.disk.doc.value, w.disk.blobs)
    ensures HeadsReachable(cfg, w')
  {
  }

  lemma AcksGrow(cfg: Config, w: World, r: nat, io: CommitIo)
    requires w.lobby.Some? && r in w.uploads
    ensures w.log.acks <= EndUpload(cfg, w, r, io).log.acks
  {
  }

  // ---- starts that cannot read the transcript ----

  /** The start takes the fresh branch and gets as far as replacing the transcript. */
  predicate Replaces(w: World, io: StartIo) {
    !Resumes(w.disk, io) && io.head.Good? && !io.doc.Bad?
  }

  /** The start costs nobody a receipt. */
  predicate SparesReceipts(w: World, e: Event) {
    e.StartUp? && Replaces(w, e.startIo) ==> w.log.acks == []
  }

  /** The start leaves the durable head reachable: it replaces the transcript too, writes
      nothing, or writes the head that an empty transcript began with.  */
  predicate SparesHead(cfg: Config, w: World, e: Event) {
    e.StartUp? && w.disk.doc.Some? && !e.startIo.readDoc ==>
      || Replaces(w, e.startIo) || e.startIo.head.Bad?
      || (w.disk.doc.value.entries == [] && w.disk.doc.value.initHash == cfg.be.Sha(e.init))
  }

  /** A start keeps the receipts exactly when there are none or it does not get as far
      as replacing the transcript.  */
  lemma StartReceipts(cfg: Config, w: World, init: Blob, circuit: string, io: StartIo)
    requires ReceiptsKept(w)
    ensures var w' := DoStart(cfg, w, init, circuit, io);
            && w'.log.acks == w.log.acks
            && (ReceiptsKept(w') <==> SparesReceipts(w, StartUp(init, circuit, io)))
  {
    var w' := DoStart(cfg, w, init, circuit, io);
    if Replaces(w, io) && w.log.acks != [] {
      assert w.log.acks[0] in w'.log.acks;
    }
  }

  /** A start from an unchallenged init head keeps the heads reachable exactly when it
      spares them.  */
  lemma StartHeads(cfg: Config, w: World, init: Blob, circuit: string, io: StartIo)
    requires Sound(cfg, w) && HeadsReachable(cfg, w) && w.lobby.None?
    ensures SparesHead(cfg, w, StartUp(init, circuit, io)) && cfg.be.CollisionFree() ==>
      HeadsReachable(cfg, DoStart(cfg, w, init, circuit, io))
    ensures cfg.be.CollisionFree() && cfg.be.Binding() && cfg.be.challenge(init) == None ==>
      SparesHead(cfg, w, StartUp(init, circuit, io)) || !DurableHeadReachable(cfg, DoStart(cfg, w, init, circuit, io))
  {
    cfg.be.ReachSelf(init);
    if w.disk.doc.Some? && !io.readDoc && cfg.be.CollisionFree() {
      var doc := w.disk.doc.value;
      if doc.entries == [] && doc.initHash == cfg.be.Sha(init) {
        cfg.be.SameSha(w.log.origin, init);
      }
      if cfg.be.Binding() && cfg.be.challenge(init) == None {
        cfg.be.ReachUnchallenged(TailBlob(w.log.origin, doc, w.disk.blobs), init);
        TailIsInit(cfg.be, w.log.origin, doc, w.disk.blobs, init);
      }
    }
  }

  /** A start that cannot read an existing transcript keeps the receipts exactly when
      there are none or one of its own writes stops it; and it leaves the durable head
      reachable exactly when it got to replace the transcript, wrote nothing, or
      rewrote the very head an empty transcript began with.  */
  lemma CarelessStart(cfg: Config, w: World, init: Blob, circuit: string, io: StartIo)
    requires Anchored(cfg, w) && w.lobby.None? && w.disk.doc.Some? && !io.readDoc
    requires cfg.be.CollisionFree() && cfg.be.Binding() && cfg.be.challenge(init) == None
    ensures var w' := DoStart(cfg, w, init, circuit, io);
            var replaced, doc := io.head.Good? && !io.doc.Bad?, w.disk.doc.value;
            && (ReceiptsKept(w') <==> w.log.acks == [] || !replaced)
            && (DurableHeadReachable(cfg, w') <==>
                  replaced || io.head.Bad? || (doc.entries == [] && doc.initHash == cfg.be.Sha(init)))
  {
    StartReceipts(cfg, w, init, circuit, io);
    StartHeads(cfg, w, init, circuit, io);
  }

  // ---- receipts over whole runs ----

  lemma ReceiptsNext(cfg: Config, w: World, e: Event)
    requires Sound(cfg, w) && ReceiptsKept(w) && Enabled(w, e)
    ensures ReceiptsKept(Next(cfg, w, e)) <==> SparesReceipts(w, e)
  {
    match e
    case UploadEnd(r, io) => ReceiptsUpload(cfg, w, r, io);
    case StartUp(init, circuit, io) => StartReceipts(cfg, w, init, circuit, io);
    case _ => OthersKeepRecord(cfg, w, e);
  }

  lemma AcksNext(cfg: Config, w: World, e: Event)
    requires Enabled(w, e)
    ensures w.log.acks <= Next(cfg, w, e).log.acks
  {
    if e.UploadEnd? {
      AcksGrow(cfg, w, e.req, e.io);
    } else if !e.StartUp? {
      OthersKeepRecord(cfg, w, e);
    }
  }

  /** At every point of the run every receipt given so far is in the durable transcript. */
  ghost predicate AlwaysReceiptsKept(cfg: Config, w: World, es: seq<Event>)
    requires Legal(cfg, w, es)
    decreases |es|
  {
    ReceiptsKept(Run(cfg, w, es)) && (es != [] ==> AlwaysReceiptsKept(cfg, w, es[..|es| - 1]))
  }

  /** No start of the run replaces a transcript for which receipts are out. */
  ghost predicate AlwaysSparesReceipts(cfg: Config, w: World, es: seq<Event>)
    requires Legal(cfg, w, es)
    decreases |es|
  {
    es != [] ==>
      var n := |es| - 1;
      AlwaysSparesReceipts(cfg, w, es[..n]) && SparesReceipts(Run(cfg, w, es[..n]), es[n])
  }

  /** Receipts are permanent, through any failed writes, crashes and restarts, exactly as
      long as no start replaces a transcript for which receipts are out: each is in every
      later durable transcript, at its index, with its hashes and ref.  */
  lemma {:induction false} ReceiptsPermanent(cfg: Config, w: World, es: seq<Event>)
    requires Sound(cfg, w) && ReceiptsKept(w) && cfg.be.CollisionFree() && Legal(cfg, w, es)
    ensures AlwaysReceiptsKept(cfg, w, es) <==> AlwaysSparesReceipts(cfg, w, es)
    ensures w.log.acks <= Run(cfg, w, es).log.acks
    decreases |es|
  {
    var n := |es| - 1;
    if es != [] {
      var v := Run(cfg, w, es[..n]);
      ReceiptsPermanent(cfg, w, es[..n]);
      AlwaysSound(cfg, w, es[..n]);
      AcksNext(cfg, v, es[n]);
      if ReceiptsKept(v) {
        ReceiptsNext(cfg, v, es[n]);
      }
      if AlwaysReceiptsKept(cfg, w, es[..n]) {
        KeptNow(cfg, w, es[..n]);
      }
    }
  }

  lemma KeptNow(cfg: Config, w: World, es: seq<Event>)
    requires Legal(cfg, w, es) && AlwaysReceiptsKept(cfg, w, es)
    ensures ReceiptsKept(Run(cfg, w, es))
  {
  }

  // ---- heads over whole runs ----

  lemma HeadsFrame(cfg: Config, w: World, w': World)
    requires Sound(cfg, w) && HeadsReachable(cfg, w) && SameRecord(w, w')
    ensures HeadsReachable(cfg, w')
  {
  }

  lemma HeadsNext(cfg: Config, w: World, e: Event)
    requires Sound(cfg, w) && HeadsReachable(cfg, w) && cfg.be.CollisionFree() && Enabled(w, e)
    ensures SparesHead(cfg, w, e) ==> HeadsReachable(cfg, Next(cfg, w, e))
    ensures cfg.be.Binding() && (e.StartUp? ==> cfg.be.challenge(e.init) == None) && !SparesHead(cfg, w, e) ==>
      !HeadsReachable(cfg, Next(cfg, w, e))
  {
    match e
    case UploadEnd(r, io) => HeadsUpload(cfg, w, r, io);
    case StartUp(init, circuit, io) => StartHeads(cfg, w, init, circuit, io);
    case _ =>
      OthersKeepRecord(cfg, w, e);
      HeadsFrame(cfg, w, Next(cfg, w, e));
  }

  /** At every point of the run both heads are reachable from their transcripts' tails. */
  ghost predicate AlwaysHeadsReachable(cfg: Config, w: World, es: seq<Event>)
    requires Legal(cfg, w, es)
    decreases |es|
  {
    HeadsReachable(cfg, Run(cfg, w, es)) && (es != [] ==> AlwaysHeadsReachable(cfg, w, es[..|es| - 1]))
  }

  ghost predicate AlwaysSparesHead(cfg: Config, w: World, es: seq<Event>)
    requires Legal(cfg, w, es)
    decreases |es|
  {
    es != [] ==>
      var n := |es| - 1;
      AlwaysSparesHead(cfg, w, es[..n]) && SparesHead(cfg, Run(cfg, w, es[..n]), es[n])
  }

  /** The init heads offered to the starts of a run embed no challenge. */
  ghost predicate UnchallengedStarts(be: Backend, es: seq<Event>) {
    forall i :: 0 <= i < |es| && es[i].StartUp? ==> be.challenge(es[i].init) == None
  }

  /** The heads stay reachable as long as every start spares them; and if verified steps
      embed their predecessor, exactly as long.  */
  lemma {:induction false} HeadsStayReachable(cfg: Config, w: World, es: seq<Event>)
    requires Sound(cfg, w) && HeadsReachable(cfg, w) && cfg.be.CollisionFree() && Legal(cfg, w, es)
    ensures AlwaysSparesHead(cfg, w, es) ==> AlwaysHeadsReachable(cfg, w, es)
    ensures cfg.be.Binding() && UnchallengedStarts(cfg.be, es) ==>
      (AlwaysHeadsReachable(cfg, w, es) <==> AlwaysSparesHead(cfg, w, es))
    decreases |es|
  {
    var n := |es| - 1;
    if es != [] {
      HeadsStayReachable(cfg, w, es[..n]);
      AlwaysSound(cfg, w, es[..n]);
      if AlwaysHeadsReachable(cfg, w, es[..n]) {
        HeadsNow(cfg, w, es[..n]);
        HeadsNext(cfg, Run(cfg, w, es[..n]), es[n]);
      }
    }
  }

  lemma HeadsNow(cfg: Config, w: World, es: seq<Event>)
    requires Legal(cfg, w, es) && AlwaysHeadsReachable(cfg, w, es)
    ensures HeadsReachable(cfg, Run(cfg, w, es))
  {
  }

  lemma TailIsInit(be: Backend, origin: Blob, doc: Document, dir: map<string, Blob>, init: Blob)
    requires Backed(be, origin, doc, dir) && be.CollisionFree() && be.Binding() && be.challenge(init) == None
    ensures TailBlob(origin, doc, dir) == init <==> doc.entries == [] && doc.initHash == be.Sha(init)
  {
    var chain := ChainOf(origin, doc, dir);
    if doc.entries != [] {
      be.LastEmbeds(chain, origin, TailBlob(origin, doc, dir));
    } else if doc.initHash == be.Sha(init) {
      be.SameSha(origin, init);
    }
  }

  // ---- a head ahead of its transcript ----

  /** The durable head is not the tail of the durable transcript, and everything in
      memory starts from that head.  */
  ghost predicate Wedged(cfg: Config, w: World) {
    && w.disk.doc.Some? && w.disk.head.Some?
    && cfg.be.Sha(w.disk.head.value) != w.disk.doc.value.Tail()
    && (w.lobby.Some? ==> w.lobby.value.doc == w.disk.doc.value && w.lobby.value.head == w.disk.head.value)
    && forall r :: r in w.uploads ==> w.uploads[r].prevHead == w.disk.head.value
  }

  /** A start leaves a wedged ceremony wedged exactly when it writes nothing, or only a
      head that does not fit the transcript either.  */
  predicate StaysWedged(cfg: Config, w: World, e: Event)
    requires w.disk.doc.Some?
  {
    e.StartUp? && !e.startIo.readDoc ==>
      e.startIo.head.Bad? || (!Replaces(w, e.startIo) && cfg.be.Sha(e.init) != w.disk.doc.value.Tail())
  }

  lemma WedgedNext(cfg: Config, w: World, e: Event)
    requires Wedged(cfg, w) && Enabled(w, e)
    ensures var w' := Next(cfg, w, e);
            && (Wedged(cfg, w') <==> StaysWedged(cfg, w, e))
            && w'.log.acks == w.log.acks
            && (StaysWedged(cfg, w, e) ==> w'.disk.doc == w.disk.doc)
  {
    if e.UploadEnd? {
      CommitShape(cfg, w.lobby.value, w.disk, w.uploads[e.req], w.now, e.io);
    }
  }

  /** No start of the run gets the ceremony out. */
  ghost predicate AlwaysStaysWedged(cfg: Config, w: World, es: seq<Event>)
    requires Legal(cfg, w, es)
    decreases |es|
  {
    es != [] ==>
      var n := |es| - 1;
      var v := Run(cfg, w, es[..n]);
      AlwaysStaysWedged(cfg, w, es[..n]) && v.disk.doc.Some? && StaysWedged(cfg, v, es[n])
  }

  /** A wedged ceremony never accepts another contribution, whatever is tried and
      however often it is restarted, until a start that cannot read the transcript
      overwrites head or transcript.  */
  lemma {:induction false} WedgedForever(cfg: Config, w: World, es: seq<Event>)
    requires Wedged(cfg, w) && Legal(cfg, w, es) && AlwaysStaysWedged(cfg, w, es)
    ensures var w' := Run(cfg, w, es);
            && Wedged(cfg, w') && w'.log.acks == w.log.acks && w'.disk.doc == w.disk.doc
    decreases |es|
  {
    var n := |es| - 1;
    if es != [] {
      WedgedForever(cfg, w, es[..n]);
      WedgedNext(cfg, Run(cfg, w, es[..n]), es[n]);
    }
  }

  /** What a commit does to the ceremony that a death right after it, or in it, leaves. A
      commit that appended and saved head and transcript heals it; one that saved the
      head alone, whether it then failed or died, wedges it unless its blob hashes like
      the durable tail; any other leaves it as it was.  */
  lemma WhenADeathWedges(cfg: Config, w: World, r: nat, io: CommitIo)
    requires Sound(cfg, w) && w.lobby.Some? && r in w.uploads && w.disk.head.Some?
    ensures var up, after := w.uploads[r], Next(cfg, EndUpload(cfg, w, r, io), Crash);
            Wedged(cfg, after) <==>
              if !CommitAppends(cfg, w.lobby.value, up, io) || io.head.Bad? then Wedged(cfg, Next(cfg, w, Crash))
              else (io.head.GoodThenCrash? || io.doc.Bad?) && cfg.be.Sha(up.next) != w.disk.doc.value.Tail()
  {
    CommitShape(cfg, w.lobby.value, w.disk, w.uploads[r], w.now, io);
  }

  /** When durable head and transcript agreed and the contribution changes the head, a
      death from the commit on wedges the ceremony if and only if the commit appended,
      saved the head and did not save the transcript: because it died in between, or
      because SaveTranscript failed.  */
  lemma WhenACrashWedges(cfg: Config, w: World, r: nat, io: CommitIo)
    requires Sound(cfg, w) && cfg.be.CollisionFree() && w.lobby.Some? && r in w.uploads
    requires w.disk.head.Some? && cfg.be.Sha(w.disk.head.value) == w.disk.doc.value.Tail()
    requires w.uploads[r].next != w.disk.head.value
    ensures Wedged(cfg, Next(cfg, EndUpload(cfg, w, r, io), Crash)) <==>
      CommitAppends(cfg, w.lobby.value, w.uploads[r], io)
      && (io.head.GoodThenCrash? || (io.head.Good? && io.doc.Bad?))
  {
    WhenADeathWedges(cfg, w, r, io);
    if cfg.be.Sha(w.uploads[r].next) == cfg.be.Sha(w.disk.head.value) {
      cfg.be.SameSha(w.uploads[r].next, w.disk.head.value);
    }
  }
}
