/** `MyOutput`, the sink the SSH session's standard output is written to:
 *  each write becomes one binary WebSocket frame. */
module Output {
  import opened Wrappers
  import opened Types

  datatype Frame = Frame(kind: MessageType, payload: seq<byte>)

  /** One call of `Write`: the frame it sends and the `(n, err)` it returns. */
  datatype WriteCall = WriteCall(sent: Frame, n: int, err: Option<Error>)

  /** `MyOutput.Write(p)`, where `sendErr` is what the WebSocket send
   *  returned. The count is the full length even when the send failed; the
   *  failure shows only in `err`, which is the send's error unchanged. */
  function Write(p: seq<byte>, sendErr: Option<Error>): (r: WriteCall)
    ensures r.sent == Frame(BinaryMessage, p)
    ensures r.n == |p|
    ensures r.err == sendErr
  {
    WriteCall(Frame(BinaryMessage, p), |p|, sendErr)
  }

  /** Successive writes of the output pump, one send result per chunk. */
  function WriteAll(chunks: seq<seq<byte>>, sendErrs: seq<Option<Error>>): seq<WriteCall>
    requires |sendErrs| == |chunks|
  {
    if |chunks| == 0 then []
    else [Write(chunks[0], sendErrs[0])] + WriteAll(chunks[1..], sendErrs[1..])
  }

  function Concat(chunks: seq<seq<byte>>): seq<byte> {
    if |chunks| == 0 then [] else chunks[0] + Concat(chunks[1..])
  }

  /** The bytes carried by the frames of a run of writes, in order. */
  function SentBytes(calls: seq<WriteCall>): seq<byte> {
    if |calls| == 0 then [] else calls[0].sent.payload + SentBytes(calls[1..])
  }

  /** The sum of the counts a run of writes reported. */
  function Reported(calls: seq<WriteCall>): int {
    if |calls| == 0 then 0 else calls[0].n + Reported(calls[1..])
  }

  /** Output reaches the client as binary frames, one per chunk, whose
   *  payloads concatenate to exactly the session's output; and the counts
   *  add up to all of it whichever sends failed. */
  lemma {:induction false} WriteAllForwardsOutput(chunks: seq<seq<byte>>, sendErrs: seq<Option<Error>>)
    requires |sendErrs| == |chunks|
    ensures |WriteAll(chunks, sendErrs)| == |chunks|
    ensures forall c :: c in WriteAll(chunks, sendErrs) ==> c.sent.kind == BinaryMessage
    ensures SentBytes(WriteAll(chunks, sendErrs)) == Concat(chunks)
    ensures Reported(WriteAll(chunks, sendErrs)) == |Concat(chunks)|
  {
    if |chunks| > 0 {
      var rest := WriteAll(chunks[1..], sendErrs[1..]);
      WriteAllForwardsOutput(chunks[1..], sendErrs[1..]);
      var all := WriteAll(chunks, sendErrs);
      assert all == [Write(chunks[0], sendErrs[0])] + rest;
      assert all[1..] == rest;
    }
  }
}
