/** What survives every interleaving, failed write, crash and restart. */
module Safety {
  import opened Basics
  import opened Crypto
  import opened Names
  import opened Transcripts
  import opened Storage
  import opened Protocol

  // ---- a transcript and the blobs behind it ----

  function StoredAt(dir: map<string, Blob>, name: string, default: Blob): Blob {
    if name in dir then dir[name] else default
  }

  /** The init head followed by the blob each entry refers to. */
  ghost function ChainOf(origin: Blob, doc: Document, dir: map<string, Blob>): (chain: seq<Blob>)
    ensures |chain| == |doc.entries| + 1 && chain[0] == origin
  {
    [origin] + seq(|doc.entries|, i requires 0 <= i < |doc.entries| => StoredAt(dir, doc.entries[i].blobRef, origin))
  }

  ghost function TailBlob(origin: Blob, doc: Document, dir: map<string, Blob>): Blob {
    ChainOf(origin, doc, dir)[|doc.entries|]
  }

  /** Entry i names a stored blob under its own index and records the hashes of that
      blob and of its predecessor.  */
  ghost predicate BackedAt(be: Backend, chain: seq<Blob>, doc: Document, dir: map<string, Blob>, i: nat)
    requires i < |doc.entries| && |chain| == |doc.entries| + 1
  {
    var e := doc.entries[i];
    && e.index == i
    && e.blobRef in dir
    && e.blobRef == BlobName(i, be.hash(chain[i + 1]))
    && e.prevSha == be.Sha(chain[i])
    && e.newSha == be.Sha(chain[i + 1])
  }

  /** Every entry is backed, and every blob is a verified step from the one before. */
  ghost predicate Backed(be: Backend, origin: Blob, doc: Document, dir: map<string, Blob>) {
    var chain := ChainOf(origin, doc, dir);
    && doc.initHash == be.Sha(origin)
    && be.Linked(chain)
    && forall i: nat :: i < |doc.entries| ==> BackedAt(be, chain, doc, dir, i)
  }

  /** A backed transcript passes Verify, and its tail hash is that of its tail blob. */
  lemma BackedIsChained(be: Backend, origin: Blob, doc: Document, dir: map<string, Blob>)
    requires Backed(be, origin, doc, dir)
    ensures doc.Chained() && doc.Tail() == be.Sha(TailBlob(origin, doc, dir))
  {
    var chain := ChainOf(origin, doc, dir);
    forall i: nat | i < |doc.entries| ensures doc.LinkedAt(i) {
      assert BackedAt(be, chain, doc, dir, i);
      assert i > 0 ==> BackedAt(be, chain, doc, dir, i - 1);
    }
    if doc.entries != [] {
      assert BackedAt(be, chain, doc, dir, |doc.entries| - 1);
    }
  }

  lemma UnreachedName(be: Backend, origin: Blob, doc: Document, dir: map<string, Blob>, index: nat, h: Digest)
    requires Backed(be, origin, doc, dir) && |doc.entries| <= index
    ensures forall i :: 0 <= i < |doc.entries| ==> doc.entries[i].blobRef != BlobName(index, h)
  {
    var chain := ChainOf(origin, doc, dir);
    NameTellsIndex(index, h);
    forall i: nat | i < |doc.entries| ensures doc.entries[i].blobRef != BlobName(index, h) {
      assert BackedAt(be, chain, doc, dir, i);
      NameTellsIndex(i, be.hash(chain[i + 1]));
    }
  }

  lemma BackedFrame(be: Backend, origin: Blob, doc: Document, dir: map<string, Blob>, name: string, b: Blob)
    requires Backed(be, origin, doc, dir)
    requires forall i :: 0 <= i < |doc.entries| ==> doc.entries[i].blobRef != name
    ensures Backed(be, origin, doc, dir[name := b])
    ensures ChainOf(origin, doc, dir[name := b]) == ChainOf(origin, doc, dir)
  {
    var dir', chain := dir[name := b], ChainOf(origin, doc, dir);
    assert ChainOf(origin, doc, dir') == chain;
    forall i: nat | i < |doc.entries| ensures BackedAt(be, chain, doc, dir', i) {
      assert BackedAt(be, chain, doc, dir, i);
    }
  }

  /** A blob saved under an index the transcript has not reached overwrites nothing
      that the transcript refers to.  */
  lemma BackedDespiteSave(be: Backend, origin: Blob, doc: Document, dir: map<string, Blob>,
                          index: nat, h: Digest, b: Blob)
    requires Backed(be, origin, doc, dir) && |doc.entries| <= index
    ensures Backed(be, origin, doc, dir[BlobName(index, h) := b])
    ensures ChainOf(origin, doc, dir[BlobName(index, h) := b]) == ChainOf(origin, doc, dir)
  {
    UnreachedName(be, origin, doc, dir, index, h);
    BackedFrame(be, origin, doc, dir, BlobName(index, h), b);
  }

  lemma BackedPrefix(be: Backend, origin: Blob, doc: Document, earlier: Document, dir: map<string, Blob>)
    requires Backed(be, origin, doc, dir) && doc.Extends(earlier)
    ensures Backed(be, origin, earlier, dir)
    ensures be.Reach(TailBlob(origin, earlier, dir), TailBlob(origin, doc, dir))
  {
    var chain, k := ChainOf(origin, doc, dir), |earlier.entries|;
    var prefix := chain[..k + 1];
    assert ChainOf(origin, earlier, dir) == prefix;
    forall i: nat | i < k ensures BackedAt(be, prefix, earlier, dir, i) {
      assert BackedAt(be, chain, doc, dir, i);
    }
    assert be.IsPath(chain[k..], chain[k], chain[|doc.entries|]);
  }

  lemma ChainGrows(origin: Blob, doc: Document, dir: map<string, Blob>, e: Entry, next: Blob)
    requires doc.Append(e).Some?
    requires forall i :: 0 <= i < |doc.entries| ==> doc.entries[i].blobRef != e.blobRef
    ensures ChainOf(origin, doc.Append(e).value, dir[e.blobRef := next]) == ChainOf(origin, doc, dir) + [next]
  {
  }

  lemma BackedAtLonger(be: Backend, chain: seq<Blob>, doc: Document, dir: map<string, Blob>, i: nat,
                       chain': seq<Blob>, doc': Document)
    requires i < |doc.entries| && |chain| == |doc.entries| + 1 && |chain'| == |doc'.entries| + 1
    requires BackedAt(be, chain, doc, dir, i) && chain <= chain' && doc.entries <= doc'.entries
    ensures BackedAt(be, chain', doc', dir, i)
  {
  }

  lemma LinkedGrows(be: Backend, chain: seq<Blob>, next: Blob)
    requires be.Linked(chain) && |chain| > 0 && be.stepOK(chain[|chain| - 1], next)
    ensures be.Linked(chain + [next])
  {
  }

  /** Saving a verified step from the tail and appending its entry. */
  lemma BackedGrows(be: Backend, origin: Blob, doc: Document, dir: map<string, Blob>, e: Entry, next: Blob)
    requires Backed(be, origin, doc, dir) && doc.Append(e).Some?
    requires be.stepOK(TailBlob(origin, doc, dir), next)
    requires e.newSha == be.Sha(next) && e.blobRef == BlobName(|doc.entries|, be.hash(next))
    ensures Backed(be, origin, doc.Append(e).value, dir[e.blobRef := next])
    ensures ChainOf(origin, doc.Append(e).value, dir[e.blobRef := next]) == ChainOf(origin, doc, dir) + [next]
  {
    var n, dir', doc' := |doc.entries|, dir[e.blobRef := next], doc.Append(e).value;
    var chain := ChainOf(origin, doc, dir);
    UnreachedName(be, origin, doc, dir, n, be.hash(next));
    BackedFrame(be, origin, doc, dir, e.blobRef, next);
    ChainGrows(origin, doc, dir, e, next);
    LinkedGrows(be, chain, next);
    forall i: nat | i < |doc'.entries| ensures BackedAt(be, chain + [next], doc', dir', i) {
      if i < n {
        BackedAtLonger(be, chain, doc, dir', i, chain + [next], doc');
      } else {
        BackedIsChained(be, origin, doc, dir);
      }
    }
  }

  // ---- soundness ----

  /** Both transcripts are backed by verified blobs, and the live one extends the
      durable one.  */
  ghost predicate Sound(cfg: Config, w: World) {
    && (w.disk.doc.Some? ==> Backed(cfg.be, w.log.origin, w.disk.doc.value, w.disk.blobs))
    && (w.lobby.Some? ==>
          && w.disk.doc.Some?
          && w.lobby.value.doc.Extends(w.disk.doc.value)
          && Backed(cfg.be, w.log.origin, w.lobby.value.doc, w.disk.blobs))
  }

  /** A commit moves the live transcript exactly when its upload is verified, still
      holds the slot, could be saved, and started from the tail blob; otherwise it
      leaves head and transcript alone, in memory and on disk.  */
  lemma AppendsOnlyAtTail(cfg: Config, w: World, r: nat, io: CommitIo)
    requires Sound(cfg, w) && cfg.be.CollisionFree() && w.lobby.Some? && r in w.uploads
    ensures var lobby, up, w' := w.lobby.value, w.uploads[r], EndUpload(cfg, w, r, io);
            var atTail := && cfg.be.stepOK(up.prevHead, up.next) && lobby.Holds(up.session.id) && io.blob.Good?
                          && up.prevHead == TailBlob(w.log.origin, lobby.doc, w.disk.blobs);
            && (w'.lobby.Some? ==> (w'.lobby.value.doc != lobby.doc <==> atTail))
            && (!atTail ==> && w'.disk.head == w.disk.head && w'.disk.doc == w.disk.doc && w'.log.acks == w.log.acks
                            && (w'.lobby.Some? ==> w'.lobby.value.head == lobby.head))
  {
    var lobby, up := w.lobby.value, w.uploads[r];
    BackedIsChained(cfg.be, w.log.origin, lobby.doc, w.disk.blobs);
    CommitShape(cfg, lobby, w.disk, up, w.now, io);
    if cfg.be.Sha(up.prevHead) == lobby.doc.Tail() {
      cfg.be.SameSha(up.prevHead, TailBlob(w.log.origin, lobby.doc, w.disk.blobs));
    }
  }

  /** The commit reaches Append and Append accepts. */
  predicate CommitAppends(cfg: Config, lobby: Lobby, up: Upload, io: CommitIo) {
    && cfg.be.stepOK(up.prevHead, up.next) && lobby.Holds(up.session.id) && io.blob.Good?
    && lobby.doc.Append(NewEntry(cfg.be, lobby, up, 0)).Some?
  }

  lemma CommitGrows(cfg: Config, w: World, r: nat, io: CommitIo)
    requires Sound(cfg, w) && cfg.be.CollisionFree() && w.lobby.Some? && r in w.uploads
    requires CommitAppends(cfg, w.lobby.value, w.uploads[r], io)
    ensures var be, lobby, up := cfg.be, w.lobby.value, w.uploads[r];
            var e := NewEntry(be, lobby, up, w.now);
            var dir' := w.disk.blobs[e.blobRef := up.next];
            && Backed(be, w.log.origin, lobby.doc.Append(e).value, dir')
            && Backed(be, w.log.origin, w.disk.doc.value, dir')
            && lobby.doc.Append(e).value.Extends(w.disk.doc.value)
            && TailBlob(w.log.origin, lobby.doc.Append(e).value, dir') == up.next
            && TailBlob(w.log.origin, w.disk.doc.value, dir') == TailBlob(w.log.origin, w.disk.doc.value, w.disk.blobs)
  {
    var be, lobby, up := cfg.be, w.lobby.value, w.uploads[r];
    var e := NewEntry(be, lobby, up, w.now);
    BackedIsChained(be, w.log.origin, lobby.doc, w.disk.blobs);
    be.SameSha(up.prevHead, TailBlob(w.log.origin, lobby.doc, w.disk.blobs));
    BackedGrows(be, w.log.origin, lobby.doc, w.disk.blobs, e, up.next);
    BackedDespiteSave(be, w.log.origin, w.disk.doc.value, w.disk.blobs, |lobby.doc.entries|, be.hash(up.next), up.next);
  }

  lemma SavedOnly(cfg: Config, w: World, b: Blob)
    requires Sound(cfg, w) && w.lobby.Some?
    ensures var lobby := w.lobby.value;
            var name := BlobName(|lobby.doc.entries|, cfg.be.hash(b));
            var dir' := w.disk.blobs[name := b];
            && Backed(cfg.be, w.log.origin, lobby.doc, dir')
            && Backed(cfg.be, w.log.origin, w.disk.doc.value, dir')
            && ChainOf(w.log.origin, lobby.doc, dir') == ChainOf(w.log.origin, lobby.doc, w.disk.blobs)
            && ChainOf(w.log.origin, w.disk.doc.value, dir') == ChainOf(w.log.origin, w.disk.doc.value, w.disk.blobs)
  {
    var n, h := |w.lobby.value.doc.entries|, cfg.be.hash(b);
    BackedDespiteSave(cfg.be, w.log.origin, w.lobby.value.doc, w.disk.blobs, n, h, b);
    BackedDespiteSave(cfg.be, w.log.origin, w.disk.doc.value, w.disk.blobs, n, h, b);
  }

  /** Where a commit can end: which of the three files, and the live transcript, move. */
  lemma CommitShape(cfg: Config, lobby: Lobby, disk: Disk, up: Upload, now: Time, io: CommitIo)
    ensures var o, e := Commit(cfg, lobby, disk, up, now, io), NewEntry(cfg.be, lobby, up, now);
            var appends := CommitAppends(cfg, lobby, up, io);
            && (o.disk.blobs == disk.blobs || o.disk.blobs == disk.blobs[e.blobRef := up.next])
            && (appends ==> o.disk.blobs == disk.blobs[e.blobRef := up.next])
            && (!appends ==> o.disk.doc == disk.doc && o.disk.head == disk.head)
            && (!appends && o.lobby.Some? ==> o.lobby.value == lobby && !o.reply.Accepted?)
            && (appends && o.lobby.Some? ==>
                  lobby.doc.Append(e) == Some(o.lobby.value.doc) && o.lobby.value.head == up.next)
            && (appends ==> o.disk.head == if io.head.Bad? then disk.head else Some(up.next))
            && (appends ==> o.disk.doc == if io.head.Good? && !io.doc.Bad? then lobby.doc.Append(e) else disk.doc)
            && (o.reply.Accepted? <==> appends && io.head.Good? && io.doc.Good?)
            && (o.reply.Accepted? ==> o.lobby.Some? && o.reply.receipt == ReceiptFor(cfg.be, lobby, up))
  {
  }

  /** What a commit leaves in the blob directory, for every fate of its writes: the file is
      there as soon as a verified upload that holds the slot was saved, whether or not it
      is then appended.  */
  lemma CommitFiles(cfg: Config, lobby: Lobby, disk: Disk, up: Upload, now: Time, io: CommitIo)
    ensures Commit(cfg, lobby, disk, up, now, io).disk.blobs ==
      if cfg.be.stepOK(up.prevHead, up.next) && lobby.Holds(up.session.id) && !io.blob.Bad? then
        disk.blobs[BlobName(|lobby.doc.entries|, cfg.be.hash(up.next)) := up.next]
      else disk.blobs
  {
  }

  /** When a commit gives each of its answers. */
  lemma CommitReplies(cfg: Config, lobby: Lobby, disk: Disk, up: Upload, now: Time, io: CommitIo)
    ensures var o, verified := Commit(cfg, lobby, disk, up, now, io), cfg.be.stepOK(up.prevHead, up.next);
            var saved := verified && lobby.Holds(up.session.id) && io.blob.Good?;
            var atTail := saved && cfg.be.Sha(up.prevHead) == lobby.doc.Tail();
            && (o.reply == Unverified <==> !verified)
            && (o.reply == SlotLost <==> verified && !lobby.Holds(up.session.id))
            && (o.reply == ChainBroken <==> saved && !atTail)
            && (o.reply == WriteFailed <==>
                  || (verified && lobby.Holds(up.session.id) && io.blob.Bad?)
                  || (atTail && (io.head.Bad? || (io.head.Good? && io.doc.Bad?))))
            && (o.reply.Accepted? <==> atTail && io.head.Good? && io.doc.Good?)
            && (o.reply == Died <==> o.lobby.None?)
  {
  }

  lemma SoundUpload(cfg: Config, w: World, r: nat, io: CommitIo)
    requires Sound(cfg, w) && cfg.be.CollisionFree() && w.lobby.Some? && r in w.uploads
    ensures Sound(cfg, EndUpload(cfg, w, r, io))
  {
    var lobby, up, w' := w.lobby.value, w.uploads[r], EndUpload(cfg, w, r, io);
    CommitShape(cfg, lobby, w.disk, up, w.now, io);
    if CommitAppends(cfg, lobby, up, io) {
      CommitGrows(cfg, w, r, io);
      SoundParts(cfg, w', lobby.doc.Append(NewEntry(cfg.be, lobby, up, w.now)).value, w.disk.doc.value);
    } else {
      SavedOnly(cfg, w, up.next);
      SoundParts(cfg, w', lobby.doc, w.disk.doc.value);
    }
  }

  lemma SoundParts(cfg: Config, w: World, live: Document, durable: Document)
    requires Backed(cfg.be, w.log.origin, live, w.disk.blobs) && Backed(cfg.be, w.log.origin, durable, w.disk.blobs)
    requires live.Extends(durable)
    requires w.disk.doc == Some(durable) || w.disk.doc == Some(live)
    requires w.lobby.Some? ==> w.lobby.value.doc == live
    ensures Sound(cfg, w)
  {
  }

  /** Disk, head and transcript are as before, or the process is gone. */
  ghost predicate SameRecord(w: World, w': World) {
    && w'.disk == w.disk && w'.log.origin == w.log.origin && w'.log.acks == w.log.acks
    && (w'.lobby.Some? ==>
          w.lobby.Some? && w'.lobby.value.doc == w.lobby.value.doc && w'.lobby.value.head == w.lobby.value.head)
  }

  /** Only a commit and a start touch disk, head and transcript. */
  lemma OthersKeepRecord(cfg: Config, w: World, e: Event)
    requires Enabled(w, e) && !e.UploadEnd? && !e.StartUp?
    ensures SameRecord(w, Next(cfg, w, e))
  {
  }

  lemma SoundFrame(cfg: Config, w: World, w': World)
    requires Sound(cfg, w) && SameRecord(w, w')
    ensures Sound(cfg, w')
  {
  }

  lemma SoundStart(cfg: Config, w: World, init: Blob, circuit: string, io: StartIo)
    requires Sound(cfg, w) && w.lobby.None?
    ensures Sound(cfg, DoStart(cfg, w, init, circuit, io))
  {
    assert ChainOf(init, EmptyDocument(cfg.be, init, circuit), w.disk.blobs) == [init];
  }

  lemma SoundNext(cfg: Config, w: World, e: Event)
    requires Sound(cfg, w) && cfg.be.CollisionFree() && Enabled(w, e)
    ensures Sound(cfg, Next(cfg, w, e))
  {
    match e
    case UploadEnd(r, io) => SoundUpload(cfg, w, r, io);
    case StartUp(init, circuit, io) => SoundStart(cfg, w, init, circuit, io);
    case _ =>
      OthersKeepRecord(cfg, w, e);
      SoundFrame(cfg, w, Next(cfg, w, e));
  }

  /** In every run, with any failed writes, crashes and restarts: both transcripts pass
      Verify, each entry's ref names a stored blob of that entry's hash, and each blob
      is a verified step from its predecessor.  */
  lemma {:induction false} AlwaysSound(cfg: Config, w: World, es: seq<Event>)
    requires Sound(cfg, w) && cfg.be.CollisionFree() && Legal(cfg, w, es)
    ensures Sound(cfg, Run(cfg, w, es))
    ensures var w' := Run(cfg, w, es);
            && (w'.disk.doc.Some? ==> w'.disk.doc.value.Chained())
            && (w'.lobby.Some? ==> w'.lobby.value.doc.Chained())
    decreases |es|
  {
    var n, w' := |es| - 1, Run(cfg, w, es);
    if es != [] {
      AlwaysSound(cfg, w, es[..n]);
      SoundNext(cfg, Run(cfg, w, es[..n]), es[n]);
    }
    if w'.disk.doc.Some? {
      BackedIsChained(cfg.be, w'.log.origin, w'.disk.doc.value, w'.disk.blobs);
    }
    if w'.lobby.Some? {
      BackedIsChained(cfg.be, w'.log.origin, w'.lobby.value.doc, w'.disk.blobs);
    }
  }
}
