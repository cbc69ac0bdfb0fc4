/**
  The JSON-RPC 2.0 records the client exchanges with its endpoint, and the
  byte strings everything travels in.  Go strings and `[]byte` are both
  plain byte sequences, so both are modelled as `Bytes`.
*/
module Rpc {
  import opened Wrappers

  newtype byte = b: int | 0 <= b < 256

  type Bytes = seq<byte>

  /** The separator parseBatch puts between a decode error and the payload. */
  const Newline: Bytes := [0x0A]

  /** One call; `params` is the raw JSON of the optional parameters. */
  datatype RpcRequest = RpcRequest(jsonRpc: Bytes, id: int, rpcMethod: Bytes, params: Option<Bytes>)

  /** The error object of a failed call; `data` is raw JSON. */
  datatype RpcError = RpcError(code: int, message: Bytes, data: Option<Bytes>)

  /** One response; `result` is left undecoded, as the client leaves it. */
  datatype RpcResponse = RpcResponse(jsonRpc: Bytes, result: Bytes, error: Option<RpcError>, id: int)
}
