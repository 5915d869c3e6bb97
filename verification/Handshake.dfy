/** The WebSocket handshake scan: find the blank line that ends the response head by keeping only
    the last three bytes between chunks. */
module Handshake {

  newtype Byte = x: int | 0 <= x < 256

  const HEAD_LIMIT := 64 * 1024

  /** CR LF CR LF at position `i`. */
  predicate BoundaryAt(bytes: seq<Byte>, i: int) {
    0 <= i <= |bytes| - 4 && bytes[i] == 13 && bytes[i + 1] == 10 && bytes[i + 2] == 13 && bytes[i + 3] == 10
  }

  predicate Contains(bytes: seq<Byte>) {
    exists i :: 0 <= i <= |bytes| - 4 && BoundaryAt(bytes, i)
  }

  function Concat(chunks: seq<seq<Byte>>): seq<Byte> {
    if chunks == [] then [] else Concat(chunks[..|chunks| - 1]) + chunks[|chunks| - 1]
  }

  /** `subarray(-3)` */
  function LastThree(bytes: seq<Byte>): seq<Byte> {
    if |bytes| <= 3 then bytes else bytes[|bytes| - 3..]
  }

  /** Waiting for more, torn down, or done: the head found at chunk `chunk`. */
  datatype Scan = Waiting | Destroyed | Found(chunk: nat, head: seq<Byte>)

  /** The independent reading: look at everything received so far, chunk by chunk. */
  function Reference(chunks: seq<seq<Byte>>): Scan {
    if chunks == [] then Waiting
    else
      var n := |chunks| - 1;
      var before := Reference(chunks[..n]);
      if before != Waiting then before
      else if |Concat(chunks)| > HEAD_LIMIT then Destroyed
      else if Contains(Concat(chunks)) then Found(n, Concat(chunks))
      else Waiting
  }

  /** Three kept bytes are enough: a boundary that is new lies in them and the chunk. */
  lemma TailSuffices(seen: seq<Byte>, chunk: seq<Byte>)
    requires !Contains(seen)
    ensures Contains(LastThree(seen) + chunk) <==> Contains(seen + chunk)
  {
    var tail, all := LastThree(seen), seen + chunk;
    var skipped := |seen| - |tail|;
    assert forall j :: 0 <= j < |tail + chunk| ==> (tail + chunk)[j] == all[skipped + j];
    if Contains(tail + chunk) {
      var i :| 0 <= i <= |tail + chunk| - 4 && BoundaryAt(tail + chunk, i);
      assert BoundaryAt(all, skipped + i);
    }
    if Contains(all) {
      var i :| 0 <= i <= |all| - 4 && BoundaryAt(all, i);
      if i < skipped {
        assert BoundaryAt(seen, i);
      } else {
        assert all[i] == (tail + chunk)[i - skipped] && all[i + 1] == (tail + chunk)[i - skipped + 1];
        assert all[i + 2] == (tail + chunk)[i - skipped + 2] && all[i + 3] == (tail + chunk)[i - skipped + 3];
        assert BoundaryAt(tail + chunk, i - skipped);
      }
    }
  }

  lemma LastThreeOfTail(seen: seq<Byte>, chunk: seq<Byte>)
    ensures LastThree(LastThree(seen) + chunk) == LastThree(seen + chunk)
  {
  }

  class Scanner {
    var chunks: seq<seq<Byte>>   // responseChunks
    var size: nat                // responseSize
    var tail: seq<Byte>          // responseTail
    var scan: Scan

    ghost predicate Valid()
      reads this
    {
      && scan == Reference(chunks)
      && (scan.Waiting? ==>
            size == |Concat(chunks)| && tail == LastThree(Concat(chunks)) && !Contains(Concat(chunks)))
    }

    constructor ()
      ensures Valid() && chunks == [] && scan.Waiting?
    {
      chunks, size, tail, scan := [], 0, [], Waiting;
    }

    /** forwardHandshake; the listener is removed once the head is found, so it is only called while waiting. */
    method ForwardHandshake(chunk: seq<Byte>)
      requires Valid() && scan.Waiting?
      modifies this
      ensures Valid() && chunks == old(chunks) + [chunk] && scan == Reference(chunks)
    {
      ghost var seen := Concat(chunks);
      assert (chunks + [chunk])[..|chunks|] == chunks;
      TailSuffices(seen, chunk);
      LastThreeOfTail(seen, chunk);
      chunks := chunks + [chunk];
      assert Concat(chunks) == seen + chunk;
      size := size + |chunk|;
      if size > HEAD_LIMIT {
        scan := Destroyed;
        return;
      }
      var boundarySearch := tail + chunk;
      if !Contains(boundarySearch) {
        tail := LastThree(boundarySearch);
        return;
      }
      var responseHead := [];
      for i := 0 to |chunks|
        invariant responseHead == Concat(chunks[..i])
      {
        assert chunks[..i + 1][..i] == chunks[..i];
        responseHead := responseHead + chunks[i];
      }
      assert chunks[..|chunks|] == chunks;
      scan := Found(|chunks| - 1, responseHead);
    }
  }

  lemma {:induction false} ConcatLonger(chunks: seq<seq<Byte>>, k: nat)
    requires k <= |chunks|
    ensures |Concat(chunks[..k])| <= |Concat(chunks)|
    ensures Concat(chunks[..k]) <= Concat(chunks)
  {
    if k < |chunks| {
      var n := |chunks| - 1;
      ConcatLonger(chunks[..n], k);
      assert chunks[..n][..k] == chunks[..k];
    } else {
      assert chunks[..k] == chunks;
    }
  }

  lemma ContainsMonotone(a: seq<Byte>, b: seq<Byte>)
    requires Contains(a) && a <= b
    ensures Contains(b)
  {
    var i :| 0 <= i <= |a| - 4 && BoundaryAt(a, i);
    assert BoundaryAt(b, i);
  }

  /** Within the limit the scan ends at exactly the first chunk whose concatenation contains the
      boundary, with that concatenation as the head. */
  lemma {:induction false} FiresAtFirst(chunks: seq<seq<Byte>>, k: nat)
    requires k < |chunks| && |Concat(chunks)| <= 65_536
    ensures Reference(chunks) == Found(k, Concat(chunks[..k + 1])) <==>
      Contains(Concat(chunks[..k + 1])) && !Contains(Concat(chunks[..k]))
  {
    var n := |chunks| - 1;
    ConcatLonger(chunks, n);
    WaitsWithout(chunks[..n]);
    if k < n {
      assert chunks[..n][..k + 1] == chunks[..k + 1] && chunks[..n][..k] == chunks[..k];
      FiresAtFirst(chunks[..n], k);
      if Contains(Concat(chunks[..k + 1])) {
        ConcatLonger(chunks[..n], k + 1);
        ContainsMonotone(Concat(chunks[..k + 1]), Concat(chunks[..n]));
      }
    } else {
      assert chunks[..k + 1] == chunks;
      FoundInside(chunks[..n]);
    }
  }

  /** Within the limit the scan is still waiting exactly when no boundary has arrived. */
  lemma {:induction false} WaitsWithout(chunks: seq<seq<Byte>>)
    requires |Concat(chunks)| <= 65_536
    ensures Reference(chunks).Waiting? <==> !Contains(Concat(chunks))
    ensures !Reference(chunks).Destroyed?
  {
    if chunks != [] {
      var n := |chunks| - 1;
      ConcatLonger(chunks, n);
      WaitsWithout(chunks[..n]);
      if Contains(Concat(chunks[..n])) { ContainsMonotone(Concat(chunks[..n]), Concat(chunks)); }
    }
  }

  lemma {:induction false} FoundInside(chunks: seq<seq<Byte>>)
    ensures Reference(chunks).Found? ==> Reference(chunks).chunk < |chunks|
  {
    if chunks != [] { FoundInside(chunks[..|chunks| - 1]); }
  }

  /** Past the limit: the scan gives up unless it had fired before the limit was passed. */
  lemma {:induction false} LimitStops(chunks: seq<seq<Byte>>)
    requires |Concat(chunks)| > 65_536
    ensures !Reference(chunks).Waiting?
    ensures Reference(chunks).Found? ==> |Reference(chunks).head| <= 65_536 && Contains(Reference(chunks).head)
  {
    var n := |chunks| - 1;
    if Reference(chunks[..n]).Found? { HeadFits(chunks[..n]); }
  }

  lemma {:induction false} HeadFits(chunks: seq<seq<Byte>>)
    ensures Reference(chunks).Found? ==> |Reference(chunks).head| <= 65_536 && Contains(Reference(chunks).head)
  {
    if chunks != [] { HeadFits(chunks[..|chunks| - 1]); }
  }

  /** How the bytes were cut does not decide whether the head is found. */
  lemma ChunkingIrrelevant(a: seq<seq<Byte>>, b: seq<seq<Byte>>)
    requires Concat(a) == Concat(b) && |Concat(a)| <= 65_536
    ensures Reference(a).Found? <==> Reference(b).Found?
  {
    WaitsWithout(a);
    WaitsWithout(b);
  }
}
