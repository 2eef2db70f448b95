/** The append-only, hash-chained record of a ceremony (ceremony/transcript.go). */
module Transcripts {
  import opened Basics

  datatype Identity = Identity(provider: string, id: string, display: string)

  datatype Entry = Entry(
    index: int,
    who: Identity,
    prevSha: string,
    newSha: string,
    blobRef: string,
    time: Time)

  /** What a transcript file holds: snapshot and LoadTranscriptJSON are inverse. */
  datatype Document = Document(
    curve: string,
    circuit: string,
    initHash: string,
    entries: seq<Entry>)
  {
    /** The hash that the next entry must start from. */
    function Tail(): string {
      if entries == [] then initHash else entries[|entries| - 1].newSha
    }

    predicate LinkedAt(i: nat)
      requires i < |entries|
    {
      && entries[i].index == i
      && entries[i].prevSha == if i == 0 then initHash else entries[i - 1].newSha
    }

    ghost predicate Chained() {
      forall i: nat :: i < |entries| ==> LinkedAt(i)
    }

    /** Appending accepts an entry that starts at the tail and renumbers it. */
    function Append(e: Entry): Option<Document> {
      if e.prevSha != Tail() then None
      else Some(this.(entries := entries + [e.(index := |entries|)]))
    }

    /** Appending the entries one by one. */
    function Replay(es: seq<Entry>): Option<Document>
      decreases |es|
    {
      if es == [] then Some(this)
      else match Append(es[0])
        case None => None
        case Some(d) => d.Replay(es[1..])
    }

    ghost predicate Extends(earlier: Document) {
      && curve == earlier.curve && circuit == earlier.circuit && initHash == earlier.initHash
      && earlier.entries <= entries
    }
  }

  /** The chained documents are exactly those that appending builds from an empty one. */
  lemma ChainedIsReplayed(d: Document)
    ensures d.Chained() <==> d.(entries := []).Replay(d.entries) == Some(d)
  {
    ReplayFrom(d, 0);
  }

  lemma {:induction false} ReplayFrom(d: Document, k: nat)
    requires k <= |d.entries|
    ensures d.(entries := d.entries[..k]).Replay(d.entries[k..]) == Some(d)
      <==> forall i: nat :: k <= i < |d.entries| ==> d.LinkedAt(i)
    decreases |d.entries| - k
  {
    var start, rest := d.(entries := d.entries[..k]), d.entries[k..];
    if k == |d.entries| {
      assert d.entries[..k] == d.entries;
    } else {
      assert rest[1..] == d.entries[k + 1..] && rest[0] == d.entries[k];
      ReplayKeeps(start, rest);
      match start.Append(rest[0]) {
        case None => assert !d.LinkedAt(k);
        case Some(next) =>
          if rest[0].index == k {
            assert d.entries[..k + 1] == d.entries[..k] + [rest[0]];
            assert next == d.(entries := d.entries[..k + 1]);
            ReplayFrom(d, k + 1);
            assert d.LinkedAt(k);
          } else {
            ReplayKeeps(next, rest[1..]);
            assert !d.LinkedAt(k);
            assert next.entries[k] != d.entries[k];
          }
      }
    }
  }

  /** A replay only adds entries behind those already there. */
  lemma {:induction false} ReplayKeeps(d: Document, es: seq<Entry>)
    ensures d.Replay(es).Some? ==> d.Replay(es).value.Extends(d)
    decreases |es|
  {
    if es != [] && d.Append(es[0]).Some? {
      ReplayKeeps(d.Append(es[0]).value, es[1..]);
    }
  }

  lemma AppendKeepsChained(d: Document, e: Entry)
    requires d.Chained() && d.Append(e).Some?
    ensures d.Append(e).value.Chained()
  {
    var d' := d.Append(e).value;
    forall i: nat | i < |d'.entries| ensures d'.LinkedAt(i) {
      if i < |d.entries| {
        assert d.LinkedAt(i);
      }
    }
  }

  /** The live transcript; its lock makes each method one atomic step. */
  class Transcript {
    const curve: string
    const circuit: string
    const initHash: string
    var entries: seq<Entry>

    function Doc(): Document
      reads this
    {
      Document(curve, circuit, initHash, entries)
    }

    constructor (doc: Document)
      ensures Doc() == doc
    {
      curve, circuit, initHash, entries := doc.curve, doc.circuit, doc.initHash, doc.entries;
    }

    method Append(e: Entry) returns (ok: bool)
      modifies this
      ensures ok <==> e.prevSha == old(Doc()).Tail()
      ensures ok ==> old(Doc()).Append(e) == Some(Doc())
      ensures !ok ==> Doc() == old(Doc())
    {
      var wantPrev;
      if |entries| == 0 {
        wantPrev := initHash;
      } else {
        wantPrev := entries[|entries| - 1].newSha;
      }
      if e.prevSha != wantPrev {
        return false;
      }
      entries := entries + [e.(index := |entries|)];
      return true;
    }

    /** Re-checks the whole chain; a failure names the first broken entry. */
    method Verify() returns (broken: Option<nat>)
      ensures broken.None? <==> Doc().Chained()
      ensures broken.Some? ==>
        && broken.value < |entries| && !Doc().LinkedAt(broken.value)
        && forall i: nat :: i < broken.value ==> Doc().LinkedAt(i)
    {
      var prev, i := initHash, 0;
      while i < |entries|
        invariant 0 <= i <= |entries|
        invariant prev == if i == 0 then initHash else entries[i - 1].newSha
        invariant forall j: nat :: j < i ==> Doc().LinkedAt(j)
      {
        var e := entries[i];
        if e.index != i || e.prevSha != prev {
          assert !Doc().LinkedAt(i);
          return Some(i);
        }
        prev := e.newSha;
        assert Doc().LinkedAt(i);
        i := i + 1;
      }
      return None;
    }

    method Len() returns (n: nat)
      ensures n == |Doc().entries|
    {
      n := |entries|;
    }
  }
}
