/** The durable state of a ceremony, a directory with head.bin, transcript.json and
    blobs/ (ceremony/storage.go).  */
module Storage {
  import opened Basics
  import opened Crypto
  import opened Names
  import opened Transcripts

  datatype Disk = Disk(head: Option<Blob>, doc: Option<Document>, blobs: map<string, Blob>)

  /** How a write ends. A Bad write leaves the old contents; after a GoodThenCrash
      write the process is gone.  */
  datatype Io = Good | Bad | GoodThenCrash

  function SaveHead(d: Disk, b: Blob, io: Io): Disk {
    if io.Bad? then d else d.(head := Some(b))
  }

  function SaveTranscript(d: Disk, doc: Document, io: Io): Disk {
    if io.Bad? then d else d.(doc := Some(doc))
  }

  function SaveBlob(d: Disk, name: string, b: Blob, io: Io): Disk {
    if io.Bad? then d else d.(blobs := d.blobs[name := b])
  }

  /** Of two blobs saved one after the other, the second overwrites the first exactly when
      they have one index and agree in the first four bytes of their hashes.  */
  lemma SavesKeepEachOther(be: Backend, d: Disk, i: nat, a: Blob, j: nat, b: Blob)
    ensures var d' := SaveBlob(SaveBlob(d, BlobName(i, be.hash(a)), a, Good), BlobName(j, be.hash(b)), b, Good);
            && BlobName(j, be.hash(b)) in d'.blobs && d'.blobs[BlobName(j, be.hash(b))] == b
            && (a != b ==>
                  (BlobName(i, be.hash(a)) in d'.blobs && d'.blobs[BlobName(i, be.hash(a))] == a
                   <==> i != j || be.hash(a)[..4] != be.hash(b)[..4]))
  {
    SameName(i, be.hash(a), j, be.hash(b));
  }

  ghost function Scan(d: Disk): seq<Blob> {
    var names := Listing(d.blobs.Keys);
    assert forall i :: 0 <= i < |names| ==> names[i] in Members(names);
    seq(|names|, i requires 0 <= i < |names| => d.blobs[names[i]])
  }

  class LocalStorage {
    var head: Option<Blob>
    var transcript: Option<Document>
    var blobs: map<string, Blob>

    function Contents(): Disk
      reads this
    {
      Disk(head, transcript, blobs)
    }

    constructor (d: Disk)
      ensures Contents() == d
    {
      head, transcript, blobs := d.head, d.doc, d.blobs;
    }

    method WriteHead(b: Blob, io: Io) returns (err: bool)
      modifies this
      ensures err <==> io.Bad?
      ensures Contents() == SaveHead(old(Contents()), b, io)
    {
      if io.Bad? {
        return true;
      }
      head := Some(b);
      return false;
    }

    method WriteTranscript(doc: Document, io: Io) returns (err: bool)
      modifies this
      ensures err <==> io.Bad?
      ensures Contents() == SaveTranscript(old(Contents()), doc, io)
    {
      if io.Bad? {
        return true;
      }
      transcript := Some(doc);
      return false;
    }

    /** Archives a contribution under a name made of its index and its hash. */
    method WriteBlob(be: Backend, index: nat, b: Blob, io: Io) returns (ref: Option<string>)
      modifies this
      ensures ref == if io.Bad? then None else Some(BlobName(index, be.hash(b)))
      ensures Contents() == SaveBlob(old(Contents()), BlobName(index, be.hash(b)), b, io)
    {
      if io.Bad? {
        return None;
      }
      var name := BlobName(index, be.hash(b));
      blobs := blobs[name := b];
      return Some(name);
    }

    /** Loads every file of the blob directory in name order. The directory is read in
        any order; a file that cannot be read fails the load.  */
    method LoadChain(listing: seq<string>, unreadable: set<string>) returns (chain: Option<seq<Blob>>)
      requires Distinct(listing) && Members(listing) == blobs.Keys
      ensures chain.Some? <==> blobs.Keys !! unreadable
      ensures chain.Some? ==> chain.value == Scan(Contents())
    {
      var names := SortStrings(listing);
      var loaded: seq<Blob> := [];
      var i := 0;
      assert forall k :: 0 <= k < |names| ==> names[k] in Members(names);
      while i < |names|
        invariant 0 <= i <= |names| && |loaded| == i
        invariant forall k :: 0 <= k < i ==> names[k] !in unreadable && loaded[k] == blobs[names[k]]
      {
        if names[i] in unreadable {
          return None;
        }
        loaded := loaded + [blobs[names[i]]];
        i := i + 1;
      }
      forall n | n in blobs.Keys ensures n !in unreadable {
        assert n in Members(names);
      }
      assert loaded == Scan(Contents());
      return Some(loaded);
    }
  }

  ghost predicate Distinct(names: seq<string>) {
    forall i, j :: 0 <= i < j < |names| ==> names[i] != names[j]
  }

  method SortStrings(names: seq<string>) returns (sorted: seq<string>)
    requires Distinct(names)
    ensures sorted == Listing(Members(names))
  {
    sorted := [];
    for i := 0 to |names|
      invariant Ascending(sorted) && Members(sorted) == Members(names[..i])
    {
      assert names[..i + 1] == names[..i] + [names[i]];
      assert names[i] !in Members(names[..i]);
      InsertedAscends(sorted, names[i]);
      sorted := Inserted(sorted, names[i]);
    }
    assert names[..|names|] == names;
    AscendingUnique(sorted, Listing(Members(names)));
  }
}
