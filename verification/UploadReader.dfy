/** The bounded read of an upload (app/api/routes/ingestion.py). */
module UploadReader {
  import opened Prelude
  import opened Base64Url

  const UPLOAD_READ_CHUNK_BYTES := 1024 * 1024

  datatype Refusal = TooLarge | Empty

  /** What the rest of the request may rely on; a function of the bytes and the limit alone. */
  function Outcome(stream: seq<byte>, maxBytes: nat): Result<seq<byte>, Refusal> {
    if |stream| > maxBytes then Err(TooLarge)
    else if stream == [] then Err(Empty)
    else Ok(stream)
  }

  lemma FlattenTake(pieces: seq<seq<byte>>, i: nat)
    requires i < |pieces|
    ensures Flatten(pieces[..i + 1]) == Flatten(pieces[..i]) + pieces[i]
  {
    assert pieces[..i + 1] == pieces[..i] + [pieces[i]];
    FlattenAppend(pieces[..i], pieces[i]);
  }

  lemma {:induction false} FlattenSize(pieces: seq<seq<byte>>, i: nat)
    requires i <= |pieces|
    ensures |Flatten(pieces[..i])| <= |Flatten(pieces)|
    decreases |pieces| - i
  {
    if i < |pieces| {
      FlattenTake(pieces, i);
      FlattenSize(pieces, i + 1);
    } else {
      assert pieces[..i] == pieces;
    }
  }

  /**
   `read_upload_bytes`.  `pieces` are the non-empty results of `file.read`, however the
   transport cuts the stream; after them comes the empty one.  Whatever the cutting, the
   result depends only on the whole stream, and a refused upload is not read much beyond
   the limit.
   */
  method ReadUploadBytes(pieces: seq<seq<byte>>, maxBytes: nat) returns (r: Result<seq<byte>, Refusal>, consumed: nat)
    requires forall i :: 0 <= i < |pieces| ==> 0 < |pieces[i]| <= UPLOAD_READ_CHUNK_BYTES
    ensures r == Outcome(Flatten(pieces), maxBytes)
    ensures r.Ok? <==> 0 < |Flatten(pieces)| <= maxBytes
    ensures r.Ok? ==> r.value == Flatten(pieces)
    ensures r == Err(TooLarge) <==> |Flatten(pieces)| > maxBytes
    ensures r == Err(TooLarge) ==> maxBytes < consumed <= maxBytes + 1048576
    ensures r != Err(TooLarge) ==> consumed == |Flatten(pieces)| <= maxBytes
  {
    var chunks: seq<seq<byte>> := [];
    var total := 0;
    var i := 0;
    while i < |pieces|
      invariant 0 <= i <= |pieces| && chunks == pieces[..i]
      invariant total == |Flatten(chunks)| <= maxBytes
    {
      var chunk := pieces[i];
      FlattenTake(pieces, i);
      chunks := chunks + [chunk];
      total := total + |chunk|;
      i := i + 1;
      if total > maxBytes {
        FlattenSize(pieces, i);
        return Err(TooLarge), total;
      }
    }
    assert pieces[..i] == pieces;
    consumed := total;
    r := if total == 0 then Err(Empty) else Ok(Flatten(chunks));
  }
}
