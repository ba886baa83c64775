/** The bounded capture loops of tools/qualification_evidence.py, for every chunking of the output. */
module BoundedCapture {
  import opened Bytes
  import opened Sequences

  const MAX_LOG_BYTES: nat := 64 * 1024 * 1024
  const MAX_STATE_BYTES: nat := 1024 * 1024

  function Min(a: nat, b: nat): (r: nat) { if a < b then a else b }

  /** What is kept of an output under a bound. */
  function Kept(output: ByteString, bound: nat): (r: ByteString) { output[..Min(|output|, bound)] }

  lemma {:induction false} KeepMore(output: ByteString, chunk: ByteString, bound: nat)
    ensures Kept(output + chunk, bound) ==
            if |output| < bound then Kept(output, bound) + chunk[..Min(|chunk|, bound - |output|)] else Kept(output, bound)
  {
  }

  /** The state pipe: the first mebibyte is kept, and overflow says whether more arrived. */
  method ReadState(chunks: seq<ByteString>) returns (payload: ByteString, overflow: bool)
    ensures payload == Kept(Flatten(chunks), MAX_STATE_BYTES)
    ensures overflow <==> |Flatten(chunks)| > MAX_STATE_BYTES
  {
    payload, overflow := [], false;
    assert chunks[..0] == [];
    for i := 0 to |chunks|
      invariant payload == Kept(Flatten(chunks[..i]), MAX_STATE_BYTES)
      invariant overflow <==> |Flatten(chunks[..i])| > MAX_STATE_BYTES
    {
      ghost var output := Flatten(chunks[..i]);
      var chunk := chunks[i];
      assert chunks[..i + 1] == chunks[..i] + [chunk];
      FlattenSnoc(chunks[..i], chunk);
      KeepMore(output, chunk, MAX_STATE_BYTES);
      var remaining := MAX_STATE_BYTES - |payload|;
      if remaining > 0 {
        payload := payload + chunk[..Min(|chunk|, remaining)];
      }
      if |chunk| > remaining {
        overflow := true;
      }
    }
    assert chunks[..|chunks|] == chunks;
  }

  /** The log a complete output should leave: itself, or its longest fitting prefix and the marker. */
  function ExpectedLog(output: ByteString, marker: ByteString): (r: ByteString)
    requires |marker| <= MAX_LOG_BYTES
  {
    var room := MAX_LOG_BYTES - |marker|;
    if |output| <= room then output else output[..room] + marker
  }

  /** The log loop; `fed` is everything the running digest has absorbed. */
  method CaptureLog(chunks: seq<ByteString>, marker: ByteString)
    returns (log: ByteString, fed: ByteString, count: nat, overflow: bool)
    requires |marker| <= MAX_LOG_BYTES
    ensures log == ExpectedLog(Flatten(chunks), marker)
    ensures fed == log && count == |log| <= MAX_LOG_BYTES
    ensures overflow <==> |Flatten(chunks)| + |marker| > MAX_LOG_BYTES
    ensures overflow ==> |log| == MAX_LOG_BYTES
  {
    var room := MAX_LOG_BYTES - |marker|;
    log, fed, count, overflow := [], [], 0, false;
    assert chunks[..0] == [];
    for i := 0 to |chunks|
      invariant log == fed == Kept(Flatten(chunks[..i]), room) && count == |log|
      invariant overflow <==> |Flatten(chunks[..i])| > room
    {
      ghost var output := Flatten(chunks[..i]);
      var chunk := chunks[i];
      assert chunks[..i + 1] == chunks[..i] + [chunk];
      FlattenSnoc(chunks[..i], chunk);
      KeepMore(output, chunk, room);
      var remaining := room - count;
      if remaining > 0 {
        var accepted := chunk[..Min(|chunk|, remaining)];
        log, fed, count := log + accepted, fed + accepted, count + |accepted|;
      }
      if |chunk| > (if remaining > 0 then remaining else 0) {
        overflow := true;
      }
    }
    assert chunks[..|chunks|] == chunks;
    if overflow {
      log, fed, count := log + marker, fed + marker, count + |marker|;
    }
  }
}
