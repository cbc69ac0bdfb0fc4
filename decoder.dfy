/**
  parseBatch: every collected payload is decoded as a JSON array of
  responses and the arrays are concatenated in payload order; the first
  payload that does not decode ends the parse with the decoder's message,
  a newline and the payload itself.  The JSON decoder is the parameter
  `decode`, whose error is the text of the decoder's error.
*/
module Decoder {
  import opened Wrappers
  import opened Rpc
  import opened Sequences

  type JsonDecoder = Bytes -> Result<seq<RpcResponse>, Bytes>

  /** The error parseBatch reports for a payload that does not decode. */
  function DecodeFailure(message: Bytes, payload: Bytes): Bytes
  {
    message + Newline + payload
  }

  /** The specification of parseBatch. */
  function ParseAll(bs: seq<Bytes>, decode: JsonDecoder): Result<seq<RpcResponse>, Bytes>
  {
    if bs == [] then Ok([])
    else
      match decode(bs[0])
      case Err(message) => Err(DecodeFailure(message, bs[0]))
      case Ok(arr) =>
        match ParseAll(bs[1..], decode)
        case Ok(rest) => Ok(arr + rest)
        case Err(e) => Err(e)
  }

  /** A parse result with the responses already gathered put in front. */
  function Prepend(prefix: seq<RpcResponse>, r: Result<seq<RpcResponse>, Bytes>): Result<seq<RpcResponse>, Bytes>
  {
    match r
    case Ok(rest) => Ok(prefix + rest)
    case Err(e) => Err(e)
  }

  /** The loop of parseBatch: the result is exactly `ParseAll`. */
  method ParseBatch(bs: seq<Bytes>, decode: JsonDecoder) returns (r: Result<seq<RpcResponse>, Bytes>)
    ensures r == ParseAll(bs, decode)
  {
    var resps: seq<RpcResponse> := [];
    assert bs[0..] == bs;
    match ParseAll(bs, decode) {
      case Ok(all) => assert [] + all == all;
      case Err(_) =>
    }
    for i := 0 to |bs|
      invariant ParseAll(bs, decode) == Prepend(resps, ParseAll(bs[i..], decode))
    {
      assert bs[i..][1..] == bs[i + 1..];
      var d := decode(bs[i]);
      if d.Err? {
        return Err(DecodeFailure(d.error, bs[i]));
      }
      match ParseAll(bs[i + 1..], decode) {
        case Ok(rest) => assert resps + (d.value + rest) == (resps + d.value) + rest;
        case Err(_) =>
      }
      resps := resps + d.value;
    }
    assert bs[|bs|..] == [];
    assert resps + [] == resps;
    return Ok(resps);
  }

  /** The parse succeeds exactly when every payload decodes, and then it is
      the concatenation, in payload order, of the decoded arrays; no payload
      gives no responses and no error. */
  lemma {:induction false} ParseAllConcatenates(bs: seq<Bytes>, arrays: seq<seq<RpcResponse>>, decode: JsonDecoder)
    requires |arrays| == |bs|
    requires forall i | 0 <= i < |bs| :: decode(bs[i]) == Ok(arrays[i])
    ensures ParseAll(bs, decode) == Ok(Flatten(arrays))
  {
    if bs != [] {
      assert forall i | 0 <= i < |bs| - 1 :: bs[1..][i] == bs[i + 1] && arrays[1..][i] == arrays[i + 1];
      ParseAllConcatenates(bs[1..], arrays[1..], decode);
    }
  }

  /** Fail fast: the parse fails exactly when some payload does not decode,
      and then its error is that of the FIRST such payload, with no partial
      result. */
  lemma {:induction false} ParseAllFirstFailure(bs: seq<Bytes>, decode: JsonDecoder)
    ensures ParseAll(bs, decode).Err? <==> exists k | 0 <= k < |bs| :: decode(bs[k]).Err?
    ensures ParseAll(bs, decode).Err? ==>
      exists k | 0 <= k < |bs| ::
        && decode(bs[k]).Err?
        && (forall j | 0 <= j < k :: decode(bs[j]).Ok?)
        && ParseAll(bs, decode).error == DecodeFailure(decode(bs[k]).error, bs[k])
  {
    if bs != [] {
      var tail := bs[1..];
      assert forall i | 0 <= i < |tail| :: tail[i] == bs[i + 1];
      ParseAllFirstFailure(tail, decode);
      if decode(bs[0]).Ok? && ParseAll(bs, decode).Err? {
        var k :| 0 <= k < |tail| && decode(tail[k]).Err?
          && (forall j | 0 <= j < k :: decode(tail[j]).Ok?)
          && ParseAll(tail, decode).error == DecodeFailure(decode(tail[k]).error, tail[k]);
        assert decode(bs[k + 1]).Err?;
        assert forall j | 0 <= j < k + 1 :: decode(bs[j]).Ok? by {
          forall j | 0 <= j < k + 1 ensures decode(bs[j]).Ok? {
            if j > 0 { assert bs[j] == tail[j - 1]; }
          }
        }
      }
      if decode(bs[0]).Ok? && ParseAll(bs, decode).Ok? {
        forall k | 0 <= k < |bs| ensures decode(bs[k]).Ok? {
          if k > 0 { assert bs[k] == tail[k - 1]; }
        }
      }
    }
  }

  /** Payloads may be grouped arbitrarily: parsing two runs of payloads
      together is parsing the first and, if it succeeds, the second. */
  lemma {:induction false} ParseAllAppend(a: seq<Bytes>, b: seq<Bytes>, decode: JsonDecoder)
    ensures ParseAll(a + b, decode) ==
      match ParseAll(a, decode)
      case Err(e) => Err(e)
      case Ok(x) => Prepend(x, ParseAll(b, decode))
  {
    if a == [] {
      assert a + b == b;
      match ParseAll(b, decode) {
        case Ok(y) => assert [] + y == y;
        case Err(_) =>
      }
    } else {
      assert (a + b)[0] == a[0];
      assert (a + b)[1..] == a[1..] + b;
      ParseAllAppend(a[1..], b, decode);
      match ParseAll(b, decode) {
        case Ok(y) =>
          match decode(a[0]) {
            case Ok(arr) =>
              match ParseAll(a[1..], decode) {
                case Ok(x) => assert arr + (x + y) == (arr + x) + y;
                case Err(_) =>
              }
            case Err(_) =>
          }
        case Err(_) =>
      }
    }
  }
}
