/**
  What one client worker makes of one batch.  The network exchange (JSON
  marshalling of the batch plus the HTTP POST) is the parameter `exchange`
  and gzip decompression is the parameter `gunzip`, whose `None` is the nil
  slice BodyGunzip yields when decompression fails or when the body
  decompresses to nothing.
*/
module Worker {
  import opened Wrappers
  import opened Rpc

  /** The result of one exchange: a transport error with its text, or a
      response with its Content-Encoding header (empty when absent) and body. */
  datatype Outcome = TransportError(text: Bytes) | Reply(contentEncoding: Bytes, body: Bytes)

  type Exchange = seq<RpcRequest> -> Outcome

  type Gunzip = Bytes -> Option<Bytes>

  /** The bytes of "gzip". */
  const Gzip: Bytes := [0x67, 0x7A, 0x69, 0x70]

  function LowerAscii(b: byte): byte
  {
    if 0x41 <= b <= 0x5A then b + 0x20 else b
  }

  /**
    `bytes.EqualFold(e, "gzip")`.  Unicode simple folding pairs g, z, i and p
    only with their ASCII capitals, so the comparison is ASCII case folding.
  */
  predicate IsGzip(e: Bytes)
  {
    |e| == |Gzip| && forall i | 0 <= i < |e| :: LowerAscii(e[i]) == Gzip[i]
  }

  /** The header matches exactly the sixteen spellings of "gzip" in any
      mix of upper and lower case. */
  lemma IsGzipSpellings(e: Bytes)
    ensures IsGzip(e) <==> |e| == 4 && forall i | 0 <= i < 4 :: e[i] == Gzip[i] || e[i] == Gzip[i] - 0x20
  {
  }

  /**
    The payload a worker forwards to the collector for one exchange, or
    None when it forwards nothing.  A transport error is forwarded as its
    text; a gzip-encoded reply as its decompressed body; any other reply as
    a copy of its body.  Only a gzip reply whose gunzip result is nil (a
    failed decompression or an empty decompressed body) forwards nothing.
  */
  function Payload(o: Outcome, gunzip: Gunzip): (p: Option<Bytes>)
    ensures o.TransportError? ==> p == Some(o.text)
    ensures o.Reply? && IsGzip(o.contentEncoding) ==> p == gunzip(o.body)
    ensures o.Reply? && !IsGzip(o.contentEncoding) ==> p == Some(o.body)
    ensures p.None? <==> o.Reply? && IsGzip(o.contentEncoding) && gunzip(o.body).None?
  {
    match o
    case TransportError(text) => Some(text)
    case Reply(encoding, body) =>
      if IsGzip(encoding) then gunzip(body) else Some(body)
  }

  /** The payloads the collector receives when the batches are served in
      emission order. */
  function Collected(batches: seq<seq<RpcRequest>>, exchange: Exchange, gunzip: Gunzip): seq<Bytes>
  {
    if batches == [] then []
    else
      var rest := Collected(batches[1..], exchange, gunzip);
      match Payload(exchange(batches[0]), gunzip)
      case Some(p) => [p] + rest
      case None => rest
  }

  /** Every batch forwards at most one payload. */
  lemma {:induction false} CollectedAtMostOnePerBatch(batches: seq<seq<RpcRequest>>, exchange: Exchange, gunzip: Gunzip)
    ensures |Collected(batches, exchange, gunzip)| <= |batches|
  {
    if batches != [] {
      CollectedAtMostOnePerBatch(batches[1..], exchange, gunzip);
    }
  }

  /** When no gunzip result is nil nothing is lost: the collector holds
      exactly one payload per batch, the i-th being the i-th batch's. */
  lemma {:induction false} CollectedNoLoss(batches: seq<seq<RpcRequest>>, exchange: Exchange, gunzip: Gunzip)
    requires forall i | 0 <= i < |batches| :: Payload(exchange(batches[i]), gunzip).Some?
    ensures var ps := Collected(batches, exchange, gunzip);
      |ps| == |batches|
      && forall i | 0 <= i < |batches| :: ps[i] == Payload(exchange(batches[i]), gunzip).value
  {
    if batches != [] {
      var rest := batches[1..];
      assert forall i | 0 <= i < |rest| :: rest[i] == batches[i + 1];
      CollectedNoLoss(rest, exchange, gunzip);
    }
  }

  /**
    The workers serving the emitted batches, one batch at a time: each
    exchange is turned into its payload, the completion counter is marked
    once per batch (`done`) whether or not a payload is forwarded, and the
    forwarded payloads are appended in arrival order.
  */
  method Serve(batches: seq<seq<RpcRequest>>, exchange: Exchange, gunzip: Gunzip)
    returns (payloads: seq<Bytes>, done: nat)
    ensures payloads == Collected(batches, exchange, gunzip)
    ensures done == |batches|
  {
    payloads, done := [], 0;
    for i := 0 to |batches|
      invariant payloads + Collected(batches[i..], exchange, gunzip) == Collected(batches, exchange, gunzip)
      invariant done == i
    {
      assert batches[i..][1..] == batches[i + 1..];
      var p := Payload(exchange(batches[i]), gunzip);
      done := done + 1;
      if p.Some? {
        payloads := payloads + [p.value];
      }
    }
    assert batches[|batches|..] == [];
  }
}
