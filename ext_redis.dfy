/**
 * app/extensions/ext_redis.py: the lazily initialised client wrapper, the
 * fallback decorator, and the parts of `init_app` that compute something
 * (node-list parsing, the client-side-cache switch and the choice of client).
 */
module RedisExt {
  import opened Wrappers
  import opened Strings

  /** The message `__getattr__` raises with before `initialize` has run. */
  const NotInitializedMessage := "Redis client is not initialized. Call init_app first."

  /** Holder of the process-wide client; `_client` starts as `None` and is set at most once. */
  class RedisClientWrapper<C> {
    var client: Option<C>

    constructor ()
      ensures client == None
    {
      client := None;
    }

    /** `initialize(client)`: only the first call has an effect. */
    method Initialize(c: C)
      modifies this
      ensures old(client).None? ==> client == Some(c)
      ensures old(client).Some? ==> client == old(client)
    {
      if client.None? {
        client := Some(c);
      }
    }

    /**
     * `__getattr__`: every attribute access goes to the wrapped client, or raises
     * RuntimeError while there is none. The client itself stands for the attribute.
     */
    method GetAttr() returns (r: Result<C, string>)
      ensures r.Err? <==> client.None?
      ensures client.Some? ==> r == Ok(client.value)
      ensures client.None? ==> r == Err(NotInitializedMessage)
    {
      if client.None? {
        r := Err(NotInitializedMessage);
      } else {
        r := Ok(client.value);
      }
    }
  }

  /** What a wrapped call raises: a `RedisError` (or subclass), or some other exception. */
  datatype Exception = RedisError(message: string) | OtherError(name: string, message: string)

  /** What a call does: returns a value or raises. */
  datatype Outcome<T> = Returned(value: T) | Raised(error: Exception)

  predicate RaisesRedisError<T>(o: Outcome<T>)
  {
    o.Raised? && o.error.RedisError?
  }

  /**
   * `redis_fallback(default_return)(func)`: a `RedisError` becomes `default_return`;
   * a returned value and any other exception pass through unchanged.
   */
  function RedisFallback<A(!new), T>(defaultReturn: T, func: A -> Outcome<T>): (wrapper: A -> Outcome<T>)
    ensures forall a :: func(a).Returned? ==> wrapper(a) == func(a)
    ensures forall a :: RaisesRedisError(func(a)) ==> wrapper(a) == Returned(defaultReturn)
    ensures forall a :: func(a).Raised? && func(a).error.OtherError? ==> wrapper(a) == func(a)
  {
    a => if RaisesRedisError(func(a)) then Returned(defaultReturn) else func(a)
  }

  /** A wrapped call never lets a `RedisError` out, and wrapping twice changes nothing. */
  lemma RedisFallbackAbsorbs<A(!new), T>(defaultReturn: T, func: A -> Outcome<T>, a: A)
    ensures !RaisesRedisError(RedisFallback(defaultReturn, func)(a))
    ensures RedisFallback(defaultReturn, RedisFallback(defaultReturn, func))(a)
            == RedisFallback(defaultReturn, func)(a)
  {
  }

  /** The exceptions `init_app` can raise while reading its configuration. */
  datatype ConfigError = IndexError | ValueError(text: string) | AssertionError(message: string)

  /** One `host:port` item: `(node.split(":")[0], int(node.split(":")[1]))`. */
  function ParseNode(node: string): (r: Result<(string, int), ConfigError>)
    ensures r.Ok? ==> r.value.0 == Split(node, ':')[0]
    ensures |Split(node, ':')| < 2 ==> r == Err(IndexError)
    ensures |Split(node, ':')| >= 2 ==> (r.Ok? <==> ParseInt(Split(node, ':')[1]).Some?)
    ensures r.Ok? ==> r.value.1 == ParseInt(Split(node, ':')[1]).value
    ensures |Split(node, ':')| >= 2 && r.Err? ==> r == Err(ValueError(Split(node, ':')[1]))
  {
    var parts := Split(node, ':');
    if |parts| < 2 then Err(IndexError)
    else
      match ParseInt(parts[1])
      case None => Err(ValueError(parts[1]))
      case Some(port) => Ok((parts[0], port))
  }

  /** A list comprehension whose element expression may raise: the first failing item decides the error. */
  function MapOk<A, B, E>(f: A -> Result<B, E>, xs: seq<A>): (r: Result<seq<B>, E>)
    ensures r.Ok? ==> |r.value| == |xs|
    ensures r.Ok? ==> forall i :: 0 <= i < |xs| ==> f(xs[i]) == Ok(r.value[i])
    ensures r.Err? <==> exists i :: 0 <= i < |xs| && f(xs[i]).Err?
    ensures r.Err? ==> exists i :: 0 <= i < |xs| && f(xs[i]) == Err(r.error)
                                   && forall k :: 0 <= k < i ==> f(xs[k]).Ok?
  {
    if |xs| == 0 then Ok([])
    else
      var tail := xs[1..];
      assert forall i :: 0 <= i < |tail| ==> tail[i] == xs[i + 1];
      match f(xs[0])
      case Err(e) => Err(e)
      case Ok(first) =>
        match MapOk(f, tail)
        case Err(e) =>
          ghost var j :| 0 <= j < |tail| && f(tail[j]) == Err(e) && forall k :: 0 <= k < j ==> f(tail[k]).Ok?;
          assert f(xs[j + 1]) == Err(e) && forall k :: 0 <= k < j + 1 ==> f(xs[k]).Ok?;
          Err(e)
        case Ok(rest) =>
          var all := [first] + rest;
          assert forall i :: 1 <= i < |xs| ==> all[i] == rest[i - 1];
          Ok(all)
  }

  /** The list comprehension over the `host:port` items. */
  function ParseEach(nodes: seq<string>): (r: Result<seq<(string, int)>, ConfigError>)
    ensures r.Ok? ==> |r.value| == |nodes|
    ensures r.Ok? ==> forall i :: 0 <= i < |nodes| ==> ParseNode(nodes[i]) == Ok(r.value[i])
    ensures r.Err? <==> exists i :: 0 <= i < |nodes| && ParseNode(nodes[i]).Err?
  {
    MapOk(ParseNode, nodes)
  }

  /** The node list of REDIS_SENTINELS or REDIS_CLUSTERS: comma-separated `host:port` items. */
  function ParseNodes(s: string): (r: Result<seq<(string, int)>, ConfigError>)
    ensures r.Ok? ==> |r.value| == |Split(s, ',')|
    ensures r.Err? ==> exists i :: 0 <= i < |Split(s, ',')| && ParseNode(Split(s, ',')[i]).Err?
    ensures (exists i :: 0 <= i < |Split(s, ',')| && ParseNode(Split(s, ',')[i]).Err?) ==> r.Err?
  {
    var nodes := Split(s, ',');
    ParseEach(nodes)
  }

  function RenderNode(node: (string, int)): string
    requires node.1 >= 0
  {
    node.0 + [':'] + NatToString(node.1)
  }

  /** The text `h1:p1,h2:p2,...` of a list of nodes. */
  function RenderNodes(nodes: seq<(string, int)>): string
    requires forall i :: 0 <= i < |nodes| ==> nodes[i].1 >= 0
  {
    Join(seq(|nodes|, i requires 0 <= i < |nodes| => RenderNode(nodes[i])), ',')
  }

  lemma ParseRenderedNode(node: (string, int))
    requires node.1 >= 0
    requires ':' !in node.0 && ',' !in node.0
    ensures ',' !in RenderNode(node)
    ensures ParseNode(RenderNode(node)) == Ok(node)
  {
    var digits := NatToString(node.1);
    var text := RenderNode(node);
    assert text == node.0 + [':'] + digits;
    assert ':' !in digits && ',' !in digits by {
      forall i | 0 <= i < |digits| ensures digits[i] != ':' && digits[i] != ',' {
        assert IsDigit(digits[i]);
      }
    }
    SplitAfterPiece(node.0, ':', digits);
    SplitNoSeparator(digits, ':');
    var parts := Split(text, ':');
    assert parts == [node.0, digits];
    ParseIntOfNat(node.1);
    assert ParseInt(parts[1]) == Some(node.1);
  }

  /** A list of nodes written out as `h1:p1,h2:p2,...` parses back to the same list, in order. */
  lemma ParseRenderedNodes(nodes: seq<(string, int)>)
    requires |nodes| >= 1
    requires forall i :: 0 <= i < |nodes| ==> nodes[i].1 >= 0
    requires forall i :: 0 <= i < |nodes| ==> ':' !in nodes[i].0 && ',' !in nodes[i].0
    ensures ParseNodes(RenderNodes(nodes)) == Ok(nodes)
  {
    var items := seq(|nodes|, i requires 0 <= i < |nodes| => RenderNode(nodes[i]));
    forall i | 0 <= i < |nodes| ensures ',' !in items[i] && ParseNode(items[i]) == Ok(nodes[i]) {
      ParseRenderedNode(nodes[i]);
    }
    SplitJoin(items, ',');
    var r := ParseEach(items);
    assert r.Ok?;
    assert r.value == nodes;
  }

  /** The `init_app` settings that decide which client is built. */
  datatype RedisConfig = RedisConfig(
    useSsl: bool,
    protocol: int,
    enableClientSideCache: bool,
    useSentinel: bool,
    sentinels: Option<string>,
    sentinelServiceName: string,
    useClusters: bool,
    clusters: Option<string>,
    host: string,
    port: int)

  /** The client `init_app` hands to `initialize`, described by the arguments it is built from. */
  datatype ClientSpec =
    | SentinelMaster(sentinels: seq<(string, int)>, serviceName: string, protocol: int, cacheEnabled: bool)
    | Cluster(startupNodes: seq<(string, int)>, protocol: int, cacheEnabled: bool)
    | Standalone(host: string, port: int, ssl: bool, protocol: int, cacheEnabled: bool)

  /** The client-side cache is asked for and the protocol is RESP3 or later. */
  predicate ClientSideCacheEnabled(cfg: RedisConfig)
  {
    cfg.enableClientSideCache && cfg.protocol >= 3
  }

  /** The client `init_app` would build: Sentinel first, then cluster, else a single server. */
  function ClientFor(cfg: RedisConfig): (r: Result<ClientSpec, ConfigError>)
    ensures r.Ok? ==> r.value.protocol == cfg.protocol
    ensures r.Ok? ==> (r.value.cacheEnabled <==> cfg.enableClientSideCache && cfg.protocol >= 3)
    ensures cfg.useSentinel ==> (r.Ok? ==> r.value.SentinelMaster?)
    ensures cfg.useSentinel && cfg.sentinels.None? ==> r.Err? && r.error.AssertionError?
    ensures cfg.useSentinel && cfg.sentinels.Some? ==> (r.Ok? <==> ParseNodes(cfg.sentinels.value).Ok?)
    ensures cfg.useSentinel && cfg.sentinels.Some? && r.Ok?
            ==> r.value.sentinels == ParseNodes(cfg.sentinels.value).value
                && r.value.serviceName == cfg.sentinelServiceName
    ensures cfg.useSentinel && cfg.sentinels.Some? && r.Err? ==> r == Err(ParseNodes(cfg.sentinels.value).error)
    ensures !cfg.useSentinel && cfg.useClusters ==> (r.Ok? ==> r.value.Cluster?)
    ensures !cfg.useSentinel && cfg.useClusters && cfg.clusters.None? ==> r.Err? && r.error.AssertionError?
    ensures !cfg.useSentinel && cfg.useClusters && cfg.clusters.Some?
            ==> (r.Ok? <==> ParseNodes(cfg.clusters.value).Ok?)
    ensures !cfg.useSentinel && cfg.useClusters && cfg.clusters.Some? && r.Ok?
            ==> r.value.startupNodes == ParseNodes(cfg.clusters.value).value
    ensures !cfg.useSentinel && cfg.useClusters && cfg.clusters.Some? && r.Err?
            ==> r == Err(ParseNodes(cfg.clusters.value).error)
    ensures !cfg.useSentinel && !cfg.useClusters
            ==> r == Ok(Standalone(cfg.host, cfg.port, cfg.useSsl, cfg.protocol, ClientSideCacheEnabled(cfg)))
  {
    var cache := ClientSideCacheEnabled(cfg);
    if cfg.useSentinel then
      if cfg.sentinels.None? then Err(AssertionError("REDIS_SENTINELS must be set when REDIS_USE_SENTINEL is True"))
      else
        match ParseNodes(cfg.sentinels.value)
        case Err(e) => Err(e)
        case Ok(hosts) => Ok(SentinelMaster(hosts, cfg.sentinelServiceName, cfg.protocol, cache))
    else if cfg.useClusters then
      if cfg.clusters.None? then Err(AssertionError("REDIS_CLUSTERS must be set when REDIS_USE_CLUSTERS is True"))
      else
        match ParseNodes(cfg.clusters.value)
        case Err(e) => Err(e)
        case Ok(nodes) => Ok(Cluster(nodes, cfg.protocol, cache))
    else Ok(Standalone(cfg.host, cfg.port, cfg.useSsl, cfg.protocol, cache))
  }

  /** `init_app`: build the client and hand it to the (single-assignment) wrapper. */
  method InitApp(wrapper: RedisClientWrapper<ClientSpec>, cfg: RedisConfig) returns (r: Result<ClientSpec, ConfigError>)
    modifies wrapper
    ensures r == ClientFor(cfg)
    ensures r.Err? ==> wrapper.client == old(wrapper.client)
    ensures r.Ok? && old(wrapper.client).None? ==> wrapper.client == Some(r.value)
    ensures old(wrapper.client).Some? ==> wrapper.client == old(wrapper.client)
  {
    r := ClientFor(cfg);
    if r.Ok? {
      wrapper.Initialize(r.value);
    }
  }
}
