/**
  The Server: its configuration, the options that change it, and the
  dispatch cycle of ExecBatchFast with its completion counter.

  The concurrency of the original (goroutines and channels) is replaced by
  one schedule: the producer emits every batch, then the workers serve the
  batches in emission order and the collector receives the payloads in that
  order.  What the model keeps is the counting: how many workers are
  started, how many batches are added to and marked done on the completion
  counter, and whether the shared collector channel is still open.
*/
module Client {
  import opened Wrappers
  import opened Rpc
  import opened Sequences
  import opened Batching
  import opened Worker
  import opened Decoder

  /** A parsed endpoint URL, reduced to the parts the client reads. */
  datatype Url = Url(scheme: Bytes, host: Bytes, rest: Bytes)

  /** `url.Parse`. */
  type UrlParser = Bytes -> Result<Url, Bytes>

  /** The bytes of "https". */
  const Https: Bytes := [0x68, 0x74, 0x74, 0x70, 0x73]

  const DefaultConn: int := 4
  const DefaultBatch: int := 50

  /**
    The functional options: the package's Address, MaxCon and MaxBatch, and
    `Custom`, any other `func(*Server) error` a caller writes.  A custom
    option may change the settings and report an error in the same call;
    SetOption keeps its changes either way.
  */
  datatype ServerOption =
    | Address(addr: Bytes)
    | MaxCon(n: int)
    | MaxBatch(n: int)
    | Custom(apply: Settings -> (Settings, Option<Bytes>))

  /** The configuration a dispatch cycle reads. */
  datatype Settings = Settings(url: Url, conn: int, batch: int)

  function DefaultSettings(u: Url): Settings
  {
    Settings(u, DefaultConn, DefaultBatch)
  }

  /** One option called on the settings: the settings it leaves and the
      error it returns. */
  function ApplyOption(s: Settings, opt: ServerOption, parse: UrlParser): (Settings, Option<Bytes>)
  {
    match opt
    case Address(addr) =>
      (match parse(addr)
       case Ok(u) => (s.(url := u), None)
       case Err(e) => (s, Some(e)))
    case MaxCon(n) => (s.(conn := n), None)
    case MaxBatch(n) => (s.(batch := n), None)
    case Custom(apply) => apply(s)
  }

  /** Of the package's own options only an unparsable address fails, and it
      then leaves the settings as they were. */
  lemma PackageOptionFails(s: Settings, opt: ServerOption, parse: UrlParser)
    requires !opt.Custom?
    ensures ApplyOption(s, opt, parse).1.Some? <==> opt.Address? && parse(opt.addr).Err?
    ensures ApplyOption(s, opt, parse).1.Some? ==>
      ApplyOption(s, opt, parse) == (s, Some(parse(opt.addr).error))
  {
  }

  /** The options applied left to right, stopping at the first error; the
      options before it, and the failing one itself, stay applied. */
  function ApplyOptions(s: Settings, opts: seq<ServerOption>, parse: UrlParser): (Settings, Option<Bytes>)
    decreases |opts|
  {
    if |opts| == 0 then (s, None)
    else
      var (next, err) := ApplyOption(s, opts[0], parse);
      if err.Some? then (next, err) else ApplyOptions(next, opts[1..], parse)
  }

  predicate Rejects(s: Settings, opt: ServerOption, parse: UrlParser)
  {
    ApplyOption(s, opt, parse).1.Some?
  }

  /** The index of the first option SetOption rejects, starting from `s`;
      |opts| if none is rejected. */
  function FirstRejected(s: Settings, opts: seq<ServerOption>, parse: UrlParser): (k: nat)
    ensures k <= |opts|
    ensures forall j | 0 <= j < k :: !Rejects(ApplyOptions(s, opts[..j], parse).0, opts[j], parse)
    ensures k < |opts| ==> Rejects(ApplyOptions(s, opts[..k], parse).0, opts[k], parse)
    decreases |opts|
  {
    if |opts| == 0 then 0
    else if Rejects(s, opts[0], parse) then
      assert opts[..0] == [];
      0
    else
      var next := ApplyOption(s, opts[0], parse).0;
      var k := 1 + FirstRejected(next, opts[1..], parse);
      assert forall j | 1 <= j <= k && j <= |opts| ::
        ApplyOptions(s, opts[..j], parse).0 == ApplyOptions(next, opts[1..][..j - 1], parse).0 by {
        forall j | 1 <= j <= k && j <= |opts|
          ensures ApplyOptions(s, opts[..j], parse).0 == ApplyOptions(next, opts[1..][..j - 1], parse).0
        {
          assert opts[..j][0] == opts[0] && opts[..j][1..] == opts[1..][..j - 1];
        }
      }
      assert forall j | 1 <= j < k :: opts[j] == opts[1..][j - 1];
      k
  }

  /** SetOption reports an error exactly when some option is rejected; the
      error, and the settings, are those the first rejected option leaves
      when called on the settings the options before it produced. */
  lemma {:induction false} ApplyOptionsFirstError(s: Settings, opts: seq<ServerOption>, parse: UrlParser)
    ensures var k := FirstRejected(s, opts, parse);
      var before := ApplyOptions(s, opts[..k], parse);
      && before.1.None?
      && (k < |opts| ==> ApplyOptions(s, opts, parse) == ApplyOption(before.0, opts[k], parse))
      && (k == |opts| ==> ApplyOptions(s, opts, parse) == before)
      && (ApplyOptions(s, opts, parse).1.Some? <==> k < |opts|)
    decreases |opts|
  {
    if |opts| == 0 {
      assert opts[..0] == opts;
    } else if Rejects(s, opts[0], parse) {
      assert opts[..0] == [];
    } else {
      var next := ApplyOption(s, opts[0], parse).0;
      var tail := opts[1..];
      ApplyOptionsFirstError(next, tail, parse);
      var k := FirstRejected(next, tail, parse);
      assert FirstRejected(s, opts, parse) == k + 1;
      assert opts[..k + 1][0] == opts[0] && opts[..k + 1][1..] == tail[..k];
      assert ApplyOptions(s, opts[..k + 1], parse) == ApplyOptions(next, tail[..k], parse);
      if k < |tail| {
        assert opts[k + 1] == tail[k];
      }
    }
  }

  /** With only the package's own options, the first rejected option is an
      address that does not parse, and its parse error is returned. */
  lemma PackageOptionsFirstError(s: Settings, opts: seq<ServerOption>, parse: UrlParser)
    requires forall j | 0 <= j < |opts| :: !opts[j].Custom?
    ensures var k := FirstRejected(s, opts, parse);
      && (k < |opts| ==> opts[k].Address? && parse(opts[k].addr).Err?
                         && ApplyOptions(s, opts, parse).1 == Some(parse(opts[k].addr).error))
      && (k == |opts| ==> ApplyOptions(s, opts, parse).1.None?)
  {
    ApplyOptionsFirstError(s, opts, parse);
    var k := FirstRejected(s, opts, parse);
    if k < |opts| {
      PackageOptionFails(ApplyOptions(s, opts[..k], parse).0, opts[k], parse);
    }
  }

  /** Options compose: applying `a + b` is applying `a` and then, if it
      did not fail, `b`. */
  lemma {:induction false} ApplyOptionsAppend(s: Settings, a: seq<ServerOption>, b: seq<ServerOption>, parse: UrlParser)
    ensures ApplyOptions(s, a + b, parse) ==
      var (mid, err) := ApplyOptions(s, a, parse);
      if err.Some? then (mid, err) else ApplyOptions(mid, b, parse)
    decreases |a|
  {
    if a == [] {
      assert a + b == b;
    } else {
      assert (a + b)[0] == a[0] && (a + b)[1..] == a[1..] + b;
      var (next, err) := ApplyOption(s, a[0], parse);
      if err.None? {
        ApplyOptionsAppend(next, a[1..], b, parse);
      }
    }
  }

  /** The setters do not validate: any connection count and any batch size,
      zero and negative ones included, are stored as given, and the last
      setting wins. */
  lemma {:induction false} LastSetterWins(s: Settings, opts: seq<ServerOption>, n: int, m: int, parse: UrlParser)
    requires ApplyOptions(s, opts, parse).1.None?
    ensures var (t, err) := ApplyOptions(s, opts + [MaxCon(n), MaxBatch(m)], parse);
      err.None? && t.conn == n && t.batch == m && t.url == ApplyOptions(s, opts, parse).0.url
  {
    ApplyOptionsAppend(s, opts, [MaxCon(n), MaxBatch(m)], parse);
    var mid := ApplyOptions(s, opts, parse).0;
    assert [MaxCon(n), MaxBatch(m)][1..] == [MaxBatch(m)];
    assert ApplyOptions(mid.(conn := n), [MaxBatch(m)], parse) == ApplyOptions(mid.(conn := n, batch := m), [], parse);
    assert ApplyOptions(mid, [MaxCon(n), MaxBatch(m)], parse) == (mid.(conn := n, batch := m), None);
  }

  /** How a call of ExecBatchFast ends: it returns, it blocks forever, or
      the process panics. */
  datatype Run<+T> = Returns(value: T) | Blocks | Panics

  /**
    One call of ExecBatchFast on a server whose collector channel is
    `collectorOpen` and which already runs `workers` client goroutines.
    An empty request list returns nothing at once.  With no worker at all
    the first batch can never be handed over and the call blocks.  Once the
    collector channel has been closed by an earlier call, the first worker
    that forwards a payload sends on a closed channel (and with no payload
    at all the second close of that channel) panics.  Otherwise the call
    returns the payloads of the batches.
  */
  function DispatchCycle(s: Settings, collectorOpen: bool, workers: nat, rs: seq<RpcRequest>,
                         exchange: Exchange, gunzip: Gunzip): Run<seq<Bytes>>
  {
    if |rs| < 1 then Returns([])
    else if workers + WorkersStarted(s.conn, |rs|) == 0 then Blocks
    else if !collectorOpen then Panics
    else Returns(Collected(Chunks(rs, s.batch), exchange, gunzip))
  }

  /** A first call with at least one connection returns (exchanges always
      complete in this model) with one payload per batch at most, and
      exactly one per batch when no gunzip result is nil; the batches it
      sends are the requests cut into consecutive slices. */
  lemma FirstCallServesEveryBatch(s: Settings, rs: seq<RpcRequest>, exchange: Exchange, gunzip: Gunzip)
    requires s.conn >= 1 && rs != []
    ensures var c := Chunks(rs, s.batch);
      var r := DispatchCycle(s, true, 0, rs, exchange, gunzip);
      && r.Returns?
      && Flatten(c) == rs
      && |r.value| <= |c|
      && ((forall i | 0 <= i < |c| :: Payload(exchange(c[i]), gunzip).Some?) ==>
            |r.value| == |c| && forall i | 0 <= i < |c| :: r.value[i] == Payload(exchange(c[i]), gunzip).value)
  {
    var c := Chunks(rs, s.batch);
    FlattenChunks(rs, s.batch);
    CollectedAtMostOnePerBatch(c, exchange, gunzip);
    if forall i | 0 <= i < |c| :: Payload(exchange(c[i]), gunzip).Some? {
      CollectedNoLoss(c, exchange, gunzip);
    }
  }

  /** Among calls whose exchanges complete, which is every call here, a
      call blocks exactly when it has requests and no worker exists. */
  lemma BlocksWithoutWorkers(s: Settings, collectorOpen: bool, workers: nat, rs: seq<RpcRequest>,
                             exchange: Exchange, gunzip: Gunzip)
    ensures DispatchCycle(s, collectorOpen, workers, rs, exchange, gunzip).Blocks?
        <==> rs != [] && workers == 0 && s.conn <= 0
  {
  }

  /** A single request whose exchange fails: the only payload is the error
      text, and decoding it fails with the decoder's message, a newline and
      that text. */
  lemma TransportErrorSurfacesAtDecode(s: Settings, q: RpcRequest, text: Bytes, message: Bytes,
                                       exchange: Exchange, gunzip: Gunzip, decode: JsonDecoder)
    requires s.conn >= 1 && exchange([q]) == TransportError(text) && decode(text) == Err(message)
    ensures DispatchCycle(s, true, 0, [q], exchange, gunzip) == Returns([text])
    ensures ParseAll([text], decode) == Err(message + Newline + text)
  {
    assert Chunks([q], s.batch) == [[q]];
    assert [[q]][1..] == [];
    assert Payload(exchange([q]), gunzip) == Some(text);
    assert Collected([[q]], exchange, gunzip) == [text] + Collected([], exchange, gunzip);
    assert WorkersStarted(s.conn, 1) >= 1;
    assert Collected(Chunks([q], s.batch), exchange, gunzip) == [text];
  }

  class Server {
    var url: Url
    /** The address and TLS flag of the connection pool, fixed when the
        server is made; a later Address option does not change them. */
    const host: Bytes
    const tls: bool
    var conn: int
    var batch: int
    /** The completion counter (the WaitGroup). */
    var pending: int
    /** Whether the collector channel, made once per server, is still open. */
    var collectorOpen: bool
    /** Client goroutines started so far; they never exit. */
    var workers: nat

    function Current(): Settings
      reads this
    {
      Settings(url, conn, batch)
    }

    /** Between calls no batch is outstanding. */
    ghost predicate Valid()
      reads this
    {
      pending == 0
    }

    /** newDefaultServer once the address has parsed. */
    constructor (u: Url)
      ensures Valid() && Current() == DefaultSettings(u)
      ensures host == u.host && tls == (u.scheme == Https)
      ensures collectorOpen && workers == 0
    {
      url, host, tls := u, u.host, u.scheme == Https;
      conn, batch := DefaultConn, DefaultBatch;
      pending, collectorOpen, workers := 0, true, 0;
    }

    method SetAddress(s: Bytes, parse: UrlParser) returns (err: Option<Bytes>)
      modifies this`url
      ensures parse(s).Err? ==> err == Some(parse(s).error) && url == old(url)
      ensures parse(s).Ok? ==> err == None && url == parse(s).value
    {
      match parse(s) {
        case Err(e) => err := Some(e);
        case Ok(u) => url := u; err := None;
      }
    }

    method SetMaxCon(n: int)
      modifies this`conn
      ensures conn == n
    {
      conn := n;
    }

    method SetMaxBatch(n: int)
      modifies this`batch
      ensures batch == n
    {
      batch := n;
    }

    /** Calling one option on the server. */
    method Apply(opt: ServerOption, parse: UrlParser) returns (err: Option<Bytes>)
      modifies this`url, this`conn, this`batch
      ensures (Current(), err) == ApplyOption(old(Current()), opt, parse)
    {
      match opt {
        case Address(addr) => err := SetAddress(addr, parse);
        case MaxCon(n) => SetMaxCon(n); err := None;
        case MaxBatch(n) => SetMaxBatch(n); err := None;
        case Custom(apply) =>
          var (next, e) := apply(Current());
          url, conn, batch := next.url, next.conn, next.batch;
          err := e;
      }
    }

    /** SetOption: the options in order, returning the first error. */
    method SetOption(options: seq<ServerOption>, parse: UrlParser) returns (err: Option<Bytes>)
      modifies this`url, this`conn, this`batch
      ensures (Current(), err) == ApplyOptions(old(Current()), options, parse)
    {
      for i := 0 to |options|
        invariant ApplyOptions(old(Current()), options, parse) == ApplyOptions(Current(), options[i..], parse)
      {
        assert options[i..][0] == options[i] && options[i..][1..] == options[i + 1..];
        err := Apply(options[i], parse);
        if err.Some? {
          return;
        }
      }
      assert options[|options|..] == [];
      err := None;
    }

    /** startClients: one goroutine per iteration, none when n <= 0. */
    method StartClients(n: int)
      modifies this`workers
      ensures workers == old(workers) + (if n > 0 then n else 0)
    {
      var i := 0;
      while i < n
        invariant n > 0 ==> 0 <= i <= n
        invariant n <= 0 ==> i == 0
        invariant workers == old(workers) + i
      {
        workers := workers + 1;
        i := i + 1;
      }
    }

    /**
      ExecBatchFast.  The batches are counted on the completion counter as
      they are emitted and marked done as they are served, so the counter
      is back at zero when the call returns; the shared collector channel is
      closed by the first non-empty call that returns, whether or not any
      payload was forwarded.
    */
    method ExecBatchFast(rs: seq<RpcRequest>, exchange: Exchange, gunzip: Gunzip) returns (r: Run<seq<Bytes>>)
      requires Valid()
      modifies this`workers, this`pending, this`collectorOpen
      ensures r == DispatchCycle(old(Current()), old(collectorOpen), old(workers), rs, exchange, gunzip)
      ensures workers == old(workers) + WorkersStarted(conn, |rs|)
      ensures r.Returns? ==> Valid() && collectorOpen == (old(collectorOpen) && rs == [])
    {
      if |rs| < 1 {
        return Returns([]);
      }
      var maxConn := conn;
      if maxConn > |rs| {
        maxConn := |rs|;
      }
      StartClients(maxConn);
      var batches, added := Partition(rs, batch);
      if workers == 0 {
        return Blocks;
      }
      pending := pending + added;
      if !collectorOpen {
        return Panics;
      }
      var payloads, done := Serve(batches, exchange, gunzip);
      pending := pending - done;
      collectorOpen := false;
      return Returns(payloads);
    }

    /**
      ExecBatchFast with its dispatch and collector channels made afresh for
      the call: only the workers of this call serve it, and no call finds
      its collector closed.
    */
    method ExecBatchFastPerCycle(rs: seq<RpcRequest>, exchange: Exchange, gunzip: Gunzip) returns (r: Run<seq<Bytes>>)
      requires Valid()
      modifies this`workers, this`pending
      ensures r == DispatchCycle(old(Current()), true, 0, rs, exchange, gunzip)
      ensures workers == old(workers) + WorkersStarted(conn, |rs|)
      ensures r.Returns? ==> Valid()
    {
      if |rs| < 1 {
        return Returns([]);
      }
      var maxConn := conn;
      if maxConn > |rs| {
        maxConn := |rs|;
      }
      var before := workers;
      StartClients(maxConn);
      var batches, added := Partition(rs, batch);
      if workers == before {
        return Blocks;
      }
      pending := pending + added;
      var payloads, done := Serve(batches, exchange, gunzip);
      pending := pending - done;
      return Returns(payloads);
    }

    /** ExecBatch: ExecBatchFast followed by parseBatch. */
    method ExecBatch(rs: seq<RpcRequest>, exchange: Exchange, gunzip: Gunzip, decode: JsonDecoder)
      returns (r: Run<Result<seq<RpcResponse>, Bytes>>)
      requires Valid()
      modifies this`workers, this`pending, this`collectorOpen
      ensures r == Parsed(DispatchCycle(old(Current()), old(collectorOpen), old(workers), rs, exchange, gunzip), decode)
      ensures r.Returns? ==> Valid()
    {
      var fast := ExecBatchFast(rs, exchange, gunzip);
      match fast {
        case Returns(bs) =>
          var parsed := ParseBatch(bs, decode);
          r := Returns(parsed);
        case Blocks => r := Blocks;
        case Panics => r := Panics;
      }
    }

    /** Exec: a one-request ExecBatch whose first response is returned;
        an empty response list makes the indexing panic. */
    method Exec(q: RpcRequest, exchange: Exchange, gunzip: Gunzip, decode: JsonDecoder)
      returns (r: Run<Result<RpcResponse, Bytes>>)
      requires Valid()
      modifies this`workers, this`pending, this`collectorOpen
      ensures r == FirstResponse(Parsed(DispatchCycle(old(Current()), old(collectorOpen), old(workers), [q], exchange, gunzip), decode))
      ensures r.Returns? ==> Valid()
    {
      var batchResult := ExecBatch([q], exchange, gunzip, decode);
      match batchResult {
        case Returns(Ok(resps)) =>
          if |resps| == 0 {
            r := Panics;
          } else {
            r := Returns(Ok(resps[0]));
          }
        case Returns(Err(e)) => r := Returns(Err(e));
        case Blocks => r := Blocks;
        case Panics => r := Panics;
      }
    }
  }

  /** The payloads of a call decoded by parseBatch. */
  function Parsed(run: Run<seq<Bytes>>, decode: JsonDecoder): Run<Result<seq<RpcResponse>, Bytes>>
  {
    match run
    case Returns(bs) => Returns(ParseAll(bs, decode))
    case Blocks => Blocks
    case Panics => Panics
  }

  /** The first response of a parsed call. */
  function FirstResponse(run: Run<Result<seq<RpcResponse>, Bytes>>): Run<Result<RpcResponse, Bytes>>
  {
    match run
    case Returns(Ok(resps)) => if |resps| == 0 then Panics else Returns(Ok(resps[0]))
    case Returns(Err(e)) => Returns(Err(e))
    case Blocks => Blocks
    case Panics => Panics
  }

  /** newDefaultServer: the address must parse; four connections and
      batches of fifty. */
  method NewDefaultServer(addr: Bytes, parse: UrlParser) returns (r: Result<Server, Bytes>)
    ensures parse(addr).Err? ==> r == Err(parse(addr).error)
    ensures parse(addr).Ok? ==>
      && r.Ok? && fresh(r.value) && r.value.Valid()
      && r.value.Current() == DefaultSettings(parse(addr).value)
      && r.value.collectorOpen && r.value.workers == 0
  {
    match parse(addr) {
      case Err(e) => r := Err(e);
      case Ok(u) =>
        var srv := new Server(u);
        r := Ok(srv);
    }
  }

  /** NewServer: the default server with the options applied; the first
      failing option fails the construction. */
  method NewServer(addr: Bytes, options: seq<ServerOption>, parse: UrlParser) returns (r: Result<Server, Bytes>)
    ensures parse(addr).Err? ==> r == Err(parse(addr).error)
    ensures parse(addr).Ok? ==>
      var (s, err) := ApplyOptions(DefaultSettings(parse(addr).value), options, parse);
      && (err.Some? ==> r == Err(err.value))
      && (err.None? ==> r.Ok? && fresh(r.value) && r.value.Valid() && r.value.Current() == s
                        && r.value.collectorOpen && r.value.workers == 0)
  {
    var made := NewDefaultServer(addr, parse);
    match made {
      case Err(e) => r := Err(e);
      case Ok(srv) =>
        var err := srv.SetOption(options, parse);
        if err.Some? {
          r := Err(err.value);
        } else {
          r := Ok(srv);
        }
    }
  }

  /** As written: a second non-empty call on the same server panics, because
      the first call closed the server's one collector channel. */
  method SecondCallPanics(u: Url, rs1: seq<RpcRequest>, rs2: seq<RpcRequest>, exchange: Exchange, gunzip: Gunzip)
    returns (first: Run<seq<Bytes>>, second: Run<seq<Bytes>>)
    requires rs1 != [] && rs2 != []
    ensures first == Returns(Collected(Chunks(rs1, DefaultBatch), exchange, gunzip))
    ensures second == Panics
  {
    var srv := new Server(u);
    first := srv.ExecBatchFast(rs1, exchange, gunzip);
    second := srv.ExecBatchFast(rs2, exchange, gunzip);
  }

  /** Corrected: with per-call channels every call on the same server
      returns the payloads of its own batches, the second as well as the
      first, whatever the endpoint answers each time. */
  method EveryCallReturns(u: Url, rs1: seq<RpcRequest>, rs2: seq<RpcRequest>,
                          exchange1: Exchange, exchange2: Exchange, gunzip: Gunzip)
    returns (first: Run<seq<Bytes>>, second: Run<seq<Bytes>>)
    ensures first == Returns(Collected(Chunks(rs1, DefaultBatch), exchange1, gunzip))
    ensures second == Returns(Collected(Chunks(rs2, DefaultBatch), exchange2, gunzip))
  {
    var srv := new Server(u);
    first := srv.ExecBatchFastPerCycle(rs1, exchange1, gunzip);
    second := srv.ExecBatchFastPerCycle(rs2, exchange2, gunzip);
  }
}
