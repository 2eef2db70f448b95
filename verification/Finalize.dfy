/** The streaming verify-and-advance loop (cmd/finalize-stream/main.go). */
module Finalize {
  import opened Basics
  import opened Crypto

  datatype Failure = NoBlobs | Unreadable(at: nat) | ChainBroken(at: nat)

  /** The blobs the files hold; a file that cannot be read is None. */
  ghost function Contents(files: seq<Option<Blob>>, default: Blob): seq<Blob> {
    seq(|files|, i requires 0 <= i < |files| => if files[i].Some? then files[i].value else default)
  }

  /** Verifies each blob against the one before it, starting from the initialized
      phase 2, and returns the last one, which is then sealed. A failure names the
      first file that stops the run.  */
  method FinalizeStream(be: Backend, init: Blob, files: seq<Option<Blob>>) returns (r: Result<Blob, Failure>)
    ensures r.Ok? <==>
      && files != [] && (forall i :: 0 <= i < |files| ==> files[i].Some?)
      && be.Linked([init] + Contents(files, init))
    ensures r.Ok? ==> r.value == Contents(files, init)[|files| - 1]
    ensures r == Err(NoBlobs) <==> files == []
    ensures r.Err? && !r.error.NoBlobs? ==>
      var k, path := r.error.at, [init] + Contents(files, init);
      && k < |files| && be.Linked(path[..k + 1])
      && (forall i :: 0 <= i < k ==> files[i].Some?)
      && (r.error.Unreadable? <==> files[k].None?)
      && (r.error.ChainBroken? ==> !be.stepOK(path[k], path[k + 1]))
  {
    if |files| == 0 {
      return Err(NoBlobs);
    }
    var prev, i := init, 0;
    ghost var path := [init] + Contents(files, init);
    while i < |files|
      invariant 0 <= i <= |files|
      invariant prev == path[i]
      invariant forall j :: 0 <= j < i ==> files[j].Some?
      invariant be.Linked(path[..i + 1])
    {
      if files[i].None? {
        return Err(Unreadable(i));
      }
      var ci := files[i].value;
      if !be.stepOK(prev, ci) {
        assert path[i + 1] == ci;
        return Err(ChainBroken(i));
      }
      prev := ci;
      i := i + 1;
    }
    assert path[..i + 1] == path;
    return Ok(prev);
  }
}
