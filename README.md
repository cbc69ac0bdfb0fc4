# jrc batching client, modelled in Dafny

`jrc.go` is a JSON-RPC 2.0 client that packs many calls into batch requests
(section 6 of the JSON-RPC 2.0 specification) and sends the batches to one
endpoint over a small pool of concurrent workers. This project models the
sequential rules inside that machinery and proves what they promise:

- the **batch partitioner** of `ExecBatchFast`, a loop that appends requests
  to a batch and emits it when it reaches the configured size. It is proved
  equal to a chunking function (`Batching.Chunks`). The lemmas about that
  function cover batch sizes, the batch count `ceil(N/size)`, and
  reassembly of the input. They also cover the case of a non-positive size,
  where everything goes out in one batch;
- the **worker-count rule**: no workers for an empty list, otherwise
  `min(conn, len(rs))`. The bound is the number of requests, not the number
  of batches;
- the **outcome-to-payload mapping** of a worker (`client`), and the
  completion counter (the `WaitGroup`). The counter is raised once per
  emitted batch and lowered once per served batch, so it is zero again when
  a call returns;
- **`parseBatch`**: decoded arrays are concatenated in payload order, and
  parsing stops at the first payload that does not decode, with the message
  `error + "\n" + payload`;
- the **configuration**: the defaults (4 connections, batches of 50), the
  unchecked setters, and `SetOption`, which applies options (the package's own
  or any a caller writes) left to right and stops at the first error;
- the **call lifecycle** of a `Server` object: its workers (which never exit)
  and its one collector channel, which is closed at the end of every non-empty call.

Foreign code becomes parameters:

- `exchange`: JSON marshalling of a batch plus the HTTP exchange;
- `gunzip`: `None` is the nil slice it gives when decompression fails or the body decompresses to nothing;
- `decode`: `json.Unmarshal` into a response array;
- `parse`: `url.Parse`.

Go strings and byte slices are both `seq<byte>`, including the string fields of the JSON-RPC records.

Three behaviours of the code are easy to misread. The model follows the
code in each:

- The code starts `min(conn, len(rs))` workers, not `min(conn, batches)`.
  For 120 requests in batches of 50 it starts four workers for three
  batches (`Batching.DefaultScenario`).
- The setters store any value, zero and negative included. With zero or
  negative connections a first non-empty call blocks forever (`Client.BlocksWithoutWorkers`).
- `Exec` on an empty response list indexes out of range and panics. No
  error is returned.

Modules: `Wrappers` (Option, Result), `Sequences` (Flatten), `Rpc` (bytes
and the JSON-RPC records), `Batching`, `Worker`, `Decoder` and `Client`.

## Model

| member | source | states |
|---|---|---|
| Batching.Partition | jrc.go:125-150 | the producer loop emits exactly `Chunks(rs, size)`, and the number of `wg.Add(1)` calls equals the number of emitted batches |
| Batching.FlattenChunks | jrc.go:126-142 | concatenating the batches in emission order gives back the request list: nothing is dropped, duplicated or reordered |
| Batching.ChunkSizes | jrc.go:127-142 | with size >= 1, every batch but the last has exactly `size` requests and the last has 1 to `size`; there are no batches exactly when there are no requests |
| Batching.ChunkCountBounds | jrc.go:125-150 | with size >= 1 and N >= 1, the batch count k is the smallest whose capacity holds all N requests: `(k-1)*size < N <= k*size` |
| Batching.ChunkCount | jrc.go:125-150 | with size >= 1, the batch count is `ceil(N/size) = (N + size - 1) / size` |
| Batching.NonPositiveSizeOneBatch | jrc.go:128 | with size <= 0 the length test never fires, so a non-empty list goes out as one trailing batch |
| Batching.ChunksNoMoreThanRequests | jrc.go:125-150 | there are never more batches than requests |
| Batching.WorkersStarted | jrc.go:109-116 | no workers for an empty list; never more workers than requests, nor more than `conn` when `conn >= 0`; at least one when `conn >= 1`; all requests' worth when `conn >= N` |
| Batching.WorkersCoverBatches | jrc.go:112-116 | for any `conn`, including zero and negative settings, the workers started are at least `min(conn, number of batches)` |
| Batching.DefaultScenario | jrc.go:112-150 | 120 requests with batch size 50 give batches of 50, 50 and 20 that reassemble the input; four connections start four workers |
| Worker.IsGzipSpellings | jrc.go:170-171 | the Content-Encoding test accepts exactly the case variants of "gzip" |
| Worker.Payload | jrc.go:165-181 | a transport error forwards its text; a gzip reply forwards the gunzip result; any other reply forwards its body; nothing is forwarded only when gunzip gives nil |
| Worker.CollectedAtMostOnePerBatch | jrc.go:165-181 | the collector receives at most one payload per batch |
| Worker.CollectedNoLoss | jrc.go:165-193 | when no gunzip result is nil (a failed decompression or an empty decompressed body), the collector holds exactly one payload per batch, each being that batch's payload |
| Worker.Serve | jrc.go:159-184 | serving the batches forwards `Collected(batches)`, and the completion counter is marked done once per batch, payload or not |
| Decoder.ParseBatch | jrc.go:249-260 | the loop returns exactly `ParseAll`: the concatenation on success, or the first failure's message |
| Decoder.ParseAllConcatenates | jrc.go:249-259 | when every payload decodes, the result is the concatenation of the decoded arrays in payload order; no payloads gives an empty result and no error |
| Decoder.ParseAllFirstFailure | jrc.go:251-256 | the parse fails exactly when some payload does not decode; the error is the first such payload's message + "\n" + payload, with no partial result |
| Decoder.ParseAllAppend | jrc.go:249-259 | parsing two runs of payloads together is parsing the first and then, if it succeeded, the second |
| Client.FirstRejected | jrc.go:49-56 | the index of the first option that fails, each option called on the settings the earlier ones left: every option before it succeeds, and it fails |
| Client.PackageOptionFails | jrc.go:58-75 | of the package's own options only an address that does not parse fails, and it leaves the settings unchanged |
| Client.ApplyOptionsFirstError | jrc.go:49-56 | SetOption fails exactly when some option is rejected, caller-written options included; the options before it all succeed and stay applied, and the error and settings are what the first rejected option returns and leaves |
| Client.PackageOptionsFirstError | jrc.go:49-75 | with only Address, MaxCon and MaxBatch, the first rejected option is an address that does not parse, and SetOption returns its parse error |
| Client.ApplyOptionsAppend | jrc.go:49-56 | applying options `a + b` is applying `a`, then `b` unless `a` failed |
| Client.LastSetterWins | jrc.go:67-75 | MaxCon and MaxBatch store any integer unchecked; the last setting wins and the URL stays as it was |
| Client.FirstCallServesEveryBatch | jrc.go:108-155 | a first call with `conn >= 1` returns whenever every exchange completes; its batches reassemble the input; it returns at most one payload per batch, and exactly one per batch when no gunzip result is nil |
| Client.BlocksWithoutWorkers | jrc.go:101-138 | among calls whose exchanges complete, a call blocks exactly when it has requests and there is no worker (`conn <= 0` on a fresh server) |
| Client.TransportErrorSurfacesAtDecode | jrc.go:165-167 | one request whose exchange fails returns the error text as its only payload; decoding it fails with message + "\n" + text |
| Client.Server.constructor | jrc.go:228-247 | a new server has the given URL, 4 connections, batches of 50, an open collector, no workers, and a TLS flag set from the "https" scheme |
| Client.Server.SetAddress | jrc.go:58-65 | an address that parses replaces the URL; one that does not leaves the URL and returns the parse error |
| Client.Server.SetMaxCon | jrc.go:67-70 | the connection count becomes `n`, unchecked |
| Client.Server.SetMaxBatch | jrc.go:72-75 | the batch size becomes `n`, unchecked |
| Client.Server.Apply | jrc.go:196-214 | one option changes the settings and returns the error as `ApplyOption` says: the package's options through their setters, a caller-written option through its own function |
| Client.Server.SetOption | jrc.go:49-56 | the new settings and the error are `ApplyOptions` of the old settings |
| Client.Server.StartClients | jrc.go:101-105 | the worker count rises by `n`, or by nothing when `n <= 0` |
| Client.Server.ExecBatchFast | jrc.go:108-156 | the call ends as `DispatchCycle` of the old state says; workers rise by `WorkersStarted`; a returning call leaves the completion counter at zero and the collector channel closed if it had requests |
| Client.Server.ExecBatchFastPerCycle | jrc.go:108-156 | with per-call channels, the call ends as `DispatchCycle` of a fresh collector and no inherited workers |
| Client.Server.ExecBatch | jrc.go:79-89 | the payloads of ExecBatchFast are parsed by `ParseAll`; blocking and panics propagate |
| Client.Server.Exec | jrc.go:92-98 | a one-request ExecBatch gives its first response; an empty response list panics; a returning call leaves the completion counter at zero |
| Client.NewDefaultServer | jrc.go:228-247 | an address that does not parse fails with the parse error; otherwise a fresh server with the defaults |
| Client.NewServer | jrc.go:217-226 | the default server with the options applied; the first failing option fails construction |
| Client.SecondCallPanics | jrc.go:153 | as written: on one server, a first non-empty call returns its payloads and a second non-empty call panics |
| Client.EveryCallReturns | jrc.go:108-156 | corrected: with per-call channels, two calls on one server, each with its own requests and its own endpoint replies, both return the payloads of their own batches |

## Findings

| source | as written | input that shows it | evidently intended | confidence | as-written member | corrected member |
|---|---|---|---|---|---|---|
| jrc.go:153 | the collector channel `resc` is made once per server (jrc.go:244) but closed at the end of every non-empty `ExecBatchFast` call | two non-empty `ExecBatchFast` calls on one server. In the second, a worker sends on the closed channel (jrc.go:166, 179). If no payload is sent, the second `close` runs instead. Either way the program panics | every call collects its own payloads, through channels made for that call | high (not executed) | Client.SecondCallPanics | Client.EveryCallReturns |

## Left out

- Goroutines, channel scheduling and `WaitGroup` blocking are not modelled. Batches are served one after another in emission order. So the collected payload order is one possible arrival order, and other schedules can reorder payloads across batches.
- The race at jrc.go:177-179 is left out. There `wg.Done()` runs before the payload is sent, so `close(srv.resc)` can come first. That is scheduling, which is not modelled.
- `uri.Parse` and the URI, request and response pooling (jrc.go:120-124, 129-134, 143-147, 151, 162-164, 182) are left out, together with `addDefaultHeaders` (jrc.go:262-266). These are transport-library calls. As a result `ExecBatchFast` has no error return in the model.
- Within one call, a batch's outcome is a function of the batch's contents (`exchange`). Two equal batches in one call, which duplicate requests can produce, therefore get the same reply in the model, while the endpoint may answer them differently or fail only one of them. Separate calls take separate `exchange` parameters.
- `exchange` always completes. In the original an endpoint that never answers hangs the call: the HostClient has no timeout (jrc.go:233) and `Do` has no deadline (jrc.go:163), so the next send or `wg.Wait()` never finishes. The model does not express this, so `Blocks` covers only the case with no worker.
- JSON marshalling of a batch (jrc.go:133, 146; its error is ignored in the original) and `HostClient.Do` together form the `exchange` parameter.
- `json.Unmarshal`, `BodyGunzip` and `url.Parse` are parameters, not definitions.
- A caller-written option (`Custom`) is modelled as a function of the URL, connection count and batch size that returns new ones and an error. What such an option could do to the server's other fields (the HostClient, the channels, the WaitGroup) is not modelled.
- `HostClient` is kept only as its address and TLS flag. Both are fixed when the server is made, so a later Address option does not change them.
- A blocked call never returns in the original. The model ends it with `Blocks`, and a crashing one with `Panics`.
- Client.Server.ExecBatchFast: says nothing about the completion counter or the collector when the call blocks or panics, because the original never continues from those states.
- Workers that never exit are modelled only as a growing count (`workers`). Idle workers left over from earlier calls are not otherwise modelled.
- Go's `int` is 32 or 64 bits wide, depending on the platform; the model's integers are unbounded. Request counts and settings never come near the limit in any arithmetic the code does.
