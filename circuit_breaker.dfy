/**
 * The client-side circuit-breaker adapter (client/circurit_breaker.go): the
 * service/method key shared by the suite and the change callback, the change
 * callback itself (apply every decoded method, then reset the methods that
 * disappeared to the default config) and the close callback's ordering.
 */
module CircuitBreaker {
  import opened Wrappers
  import opened Kitex
  import opened Parser
  import opened Apollo
  import Utils

  /** genServiceCBKey: the service name, a slash, the method name. */
  function GenServiceCBKey(toService: string, rpcMethod: string): string
  {
    toService + "/" + rpcMethod
  }

  /** The key splits back into the service name, the slash and the method name. */
  lemma GenServiceCBKeyShape(toService: string, rpcMethod: string)
    ensures var key := GenServiceCBKey(toService, rpcMethod);
      && |key| == |toService| + 1 + |rpcMethod|
      && key[..|toService|] == toService && key[|toService|] == '/' && key[|toService| + 1..] == rpcMethod
  {
  }

  /** For one service, distinct methods get distinct keys. */
  lemma GenServiceCBKeyInjective(toService: string, m1: string, m2: string)
    ensures GenServiceCBKey(toService, m1) == GenServiceCBKey(toService, m2) ==> m1 == m2
  {
    GenServiceCBKeyShape(toService, m1);
    GenServiceCBKeyShape(toService, m2);
    var k1, k2 := GenServiceCBKey(toService, m1), GenServiceCBKey(toService, m2);
    if k1 == k2 {
      assert m1 == k1[|toService| + 1..] == k2[|toService| + 1..] == m2;
    }
  }

  lemma GenServiceCBKeyInjectiveAll(toService: string)
    ensures forall m1, m2 :: GenServiceCBKey(toService, m1) == GenServiceCBKey(toService, m2) ==> m1 == m2
  {
    forall m1, m2 ensures GenServiceCBKey(toService, m1) == GenServiceCBKey(toService, m2) ==> m1 == m2 {
      GenServiceCBKeyInjective(toService, m1, m2);
    }
  }

  /** genServiceCBKeyWithRPCInfo: no key without an RPCInfo, otherwise the callee's service/method key. */
  function GenServiceCBKeyWithRPCInfo(ri: Option<RPCInfo>): (key: string)
    ensures key == "" <==> ri.None?
    ensures ri.Some? ==> key == GenServiceCBKey(ri.value.to.serviceName, ri.value.to.methodName)
  {
    if ri.None? then "" else GenServiceCBKey(ri.value.to.serviceName, ri.value.to.methodName)
  }

  /** A value per method, re-keyed by the service/method key of `dest`. */
  function Keyed<V>(dest: string, values: map<string, V>): map<string, V>
  {
    GenServiceCBKeyInjectiveAll(dest);
    map m | m in values :: GenServiceCBKey(dest, m) := values[m]
  }

  /** A method's value sits under its key. */
  lemma KeyedAt<V>(dest: string, values: map<string, V>, m: string)
    requires m in values
    ensures GenServiceCBKey(dest, m) in Keyed(dest, values) && Keyed(dest, values)[GenServiceCBKey(dest, m)] == values[m]
  {
    GenServiceCBKeyInjectiveAll(dest);
  }

  /** Every key of a re-keyed map is the key of one of its methods. */
  lemma KeyedDomain<V>(dest: string, values: map<string, V>, k: string)
    requires k in Keyed(dest, values)
    ensures exists m :: m in values && k == GenServiceCBKey(dest, m)
  {
  }

  /** Re-keying a map with one more method adds exactly that method's key. */
  lemma KeyedInsert<V>(dest: string, values: map<string, V>, m: string, v: V)
    ensures Keyed(dest, values[m := v]) == Keyed(dest, values)[GenServiceCBKey(dest, m) := v]
  {
    GenServiceCBKeyInjectiveAll(dest);
  }

  /** Updating the right operand of a map union updates the union. */
  lemma UnionUpdate<K, V>(a: map<K, V>, b: map<K, V>, k: K, v: V)
    ensures (a + b)[k := v] == a + b[k := v]
  {
  }

  /** A union adds nothing when its right operand already agrees with its left one. */
  lemma UnionAbsorbs<K, V>(a: map<K, V>, b: map<K, V>)
    requires forall k :: k in b ==> k in a && a[k] == b[k]
    ensures a + b == a
  {
  }

  /** Writing one more method's value under its key, on top of `base`. */
  lemma KeyedStep<V>(base: map<string, V>, dest: string, values: map<string, V>, m: string, v: V)
    ensures (base + Keyed(dest, values))[GenServiceCBKey(dest, m) := v] == base + Keyed(dest, values[m := v])
  {
    KeyedInsert(dest, values, m, v);
    UnionUpdate(base, Keyed(dest, values), GenServiceCBKey(dest, m), v);
  }

  /** The same value for every method of a set. */
  function Uniform<V>(ms: set<string>, v: V): (r: map<string, V>)
    ensures r.Keys == ms && forall m :: m in ms ==> r[m] == v
  {
    map m | m in ms :: v
  }

  /** One more method with the same value. */
  lemma UniformInsert<V>(ms: set<string>, m: string, v: V)
    ensures Uniform(ms + {m}, v) == Uniform(ms, v)[m := v]
  {
  }

  /** One turn of the first loop: the config of one more decoded method written under its key. */
  lemma ApplyStep(base: map<string, CBConfig>, dest: string, configs: map<string, CBConfig>, methods: set<string>,
                  m: string)
    requires m in configs
    ensures (base + Keyed(dest, Restrict(configs, methods)))[GenServiceCBKey(dest, m) := configs[m]]
         == base + Keyed(dest, Restrict(configs, methods + {m}))
  {
    RestrictInsert(configs, methods, m);
    KeyedStep(base, dest, Restrict(configs, methods), m, configs[m]);
  }

  /** One turn of the second loop: the key of one more removed method reset. */
  lemma ResetStep(base: map<string, CBConfig>, dest: string, removed: seq<string>, i: nat, dflt: CBConfig)
    requires i < |removed|
    ensures (base + Keyed(dest, Uniform(Elements(removed[..i]), dflt)))[GenServiceCBKey(dest, removed[i]) := dflt]
         == base + Keyed(dest, Uniform(Elements(removed[..i + 1]), dflt))
  {
    ElementsSnoc(removed, i);
    UniformInsert(Elements(removed[..i]), removed[i], dflt);
    KeyedStep(base, dest, Uniform(Elements(removed[..i]), dflt), removed[i], dflt);
  }

  /**
   * The suite's configs after one successful change: the payload's config for
   * each of its methods, then the default config for each method retained
   * before and missing now.
   */
  function AfterChange(configs: map<string, CBConfig>, dest: string, payload: map<string, CBConfig>,
                       previous: set<string>, dflt: CBConfig): map<string, CBConfig>
  {
    configs + Keyed(dest, payload) + Keyed(dest, Uniform(previous - payload.Keys, dflt))
  }

  /** A method present in the payload gets its decoded config and is never reset. */
  lemma AfterChangeApplies(configs: map<string, CBConfig>, dest: string, payload: map<string, CBConfig>,
                           previous: set<string>, dflt: CBConfig, m: string)
    requires m in payload
    ensures GenServiceCBKey(dest, m) in AfterChange(configs, dest, payload, previous, dflt)
    ensures AfterChange(configs, dest, payload, previous, dflt)[GenServiceCBKey(dest, m)] == payload[m]
  {
    var reset := Keyed(dest, Uniform(previous - payload.Keys, dflt));
    KeyedAt(dest, payload, m);
    if GenServiceCBKey(dest, m) in reset {
      KeyedDomain(dest, Uniform(previous - payload.Keys, dflt), GenServiceCBKey(dest, m));
      GenServiceCBKeyInjectiveAll(dest);
    }
  }

  /** A method retained before and missing from the payload is reset to the default config. */
  lemma AfterChangeResets(configs: map<string, CBConfig>, dest: string, payload: map<string, CBConfig>,
                          previous: set<string>, dflt: CBConfig, m: string)
    requires m in previous && m !in payload
    ensures AfterChange(configs, dest, payload, previous, dflt)[GenServiceCBKey(dest, m)] == dflt
  {
    KeyedAt(dest, Uniform(previous - payload.Keys, dflt), m);
  }

  /** A key that belongs to no method of the payload or the retained set keeps its config, or its absence. */
  lemma AfterChangeKeepsOthers(configs: map<string, CBConfig>, dest: string, payload: map<string, CBConfig>,
                               previous: set<string>, dflt: CBConfig, k: string)
    requires forall m :: m in payload || m in previous ==> k != GenServiceCBKey(dest, m)
    ensures k in AfterChange(configs, dest, payload, previous, dflt) <==> k in configs
    ensures k in configs ==> AfterChange(configs, dest, payload, previous, dflt)[k] == configs[k]
  {
    var applied := Keyed(dest, payload);
    var reset := Keyed(dest, Uniform(previous - payload.Keys, dflt));
    if k in applied {
      KeyedDomain(dest, payload, k);
    }
    if k in reset {
      KeyedDomain(dest, Uniform(previous - payload.Keys, dflt), k);
    }
  }

  /** A change whose retained set is its own method set resets nothing. */
  lemma AfterChangeNothingRemoved(configs: map<string, CBConfig>, dest: string, payload: map<string, CBConfig>,
                                  dflt: CBConfig)
    ensures AfterChange(configs, dest, payload, payload.Keys, dflt) == configs + Keyed(dest, payload)
  {
    var none: map<string, CBConfig> := map[];
    assert Uniform(payload.Keys - payload.Keys, dflt) == none;
    assert Keyed(dest, none) == none;
  }

  /** After a change, every key the payload wrote still holds what it wrote. */
  lemma AfterChangeHoldsApplied(configs: map<string, CBConfig>, dest: string, payload: map<string, CBConfig>,
                                previous: set<string>, dflt: CBConfig, k: string)
    requires k in Keyed(dest, payload)
    ensures k in AfterChange(configs, dest, payload, previous, dflt)
    ensures AfterChange(configs, dest, payload, previous, dflt)[k] == Keyed(dest, payload)[k]
  {
    KeyedDomain(dest, payload, k);
    var m :| m in payload && k == GenServiceCBKey(dest, m);
    AfterChangeApplies(configs, dest, payload, previous, dflt, m);
    KeyedAt(dest, payload, m);
  }

  /**
   * Delivering the same payload a second time, once the retained set is its
   * method set, changes nothing more.
   */
  lemma AfterChangeRedelivery(configs: map<string, CBConfig>, dest: string, payload: map<string, CBConfig>,
                              previous: set<string>, dflt: CBConfig)
    ensures var once := AfterChange(configs, dest, payload, previous, dflt);
      AfterChange(once, dest, payload, payload.Keys, dflt) == once
  {
    var once := AfterChange(configs, dest, payload, previous, dflt);
    AfterChangeNothingRemoved(once, dest, payload, dflt);
    forall k | k in Keyed(dest, payload)
      ensures k in once && once[k] == Keyed(dest, payload)[k]
    {
      AfterChangeHoldsApplied(configs, dest, payload, previous, dflt, k);
    }
    UnionAbsorbs(once, Keyed(dest, payload));
  }

  /**
   * The key an RPC to `dest`'s method `m` is broken under is the key the
   * callback wrote that method's config to, whatever the payload.
   */
  lemma CallSeesAppliedConfig(configs: map<string, CBConfig>, dest: string, payload: map<string, CBConfig>,
                              previous: set<string>, dflt: CBConfig, m: string)
    requires m in payload
    ensures var key := GenServiceCBKeyWithRPCInfo(Some(RPCInfo(EndpointInfo(dest, m))));
      key in AfterChange(configs, dest, payload, previous, dflt)
      && AfterChange(configs, dest, payload, previous, dflt)[key] == payload[m]
  {
    AfterChangeApplies(configs, dest, payload, previous, dflt, m);
  }

  /** The state initCircuitBreaker keeps for one destination, and its two callbacks. */
  class CircuitBreakerWatcher {
    const param: ConfigParam
    const dest: string
    const suite: CBSuite
    /** The methods the last successful payload held (`lcb`). */
    const retained: Utils.ThreadSafeSet
    /** circuitbreak.GetDefaultCBConfig(), which belongs to Kitex. */
    const defaultConfig: CBConfig
    const client: Client

    constructor (param: ConfigParam, dest: string, suite: CBSuite, retained: Utils.ThreadSafeSet,
                 defaultConfig: CBConfig, client: Client)
      ensures this.param == param && this.dest == dest && this.suite == suite && this.retained == retained
      ensures this.defaultConfig == defaultConfig && this.client == client
    {
      this.param := param;
      this.dest := dest;
      this.suite := suite;
      this.retained := retained;
      this.defaultConfig := defaultConfig;
      this.client := client;
    }

    /**
     * The change callback: on a decode error nothing changes; otherwise the
     * suite ends as AfterChange says and the retained methods are the payload's.
     */
    method OnChange(data: string, parser: ConfigParser)
      modifies suite, retained
      ensures var d := parser.decodeCircuitBreak(param.kind, data);
        if d.Err? then
          suite.serviceConfigs == old(suite.serviceConfigs) && retained.items == old(retained.items)
        else
          && suite.serviceConfigs == AfterChange(old(suite.serviceConfigs), dest, d.value, old(retained.items), defaultConfig)
          && retained.items == d.value.Keys
      ensures suite.closed == old(suite.closed)
    {
      var decoded := parser.decodeCircuitBreak(param.kind, data);
      if decoded.Err? {
        return;
      }
      var methods := ApplyPayload(decoded.value);
      ghost var afterApply := suite.serviceConfigs;
      var removed := retained.DiffAndEmplace(methods);
      ResetRemoved(removed);
      assert suite.serviceConfigs == afterApply + Keyed(dest, Uniform(old(retained.items) - methods, defaultConfig));
    }

    /** The first loop: every decoded method's config written under its key; returns the decoded method set. */
    method ApplyPayload(configs: map<string, CBConfig>) returns (methods: set<string>)
      modifies suite`serviceConfigs
      ensures methods == configs.Keys
      ensures suite.serviceConfigs == old(suite.serviceConfigs) + Keyed(dest, configs)
    {
      methods := {};
      var todo := configs.Keys;
      while todo != {}
        invariant methods <= configs.Keys && todo == configs.Keys - methods
        invariant suite.serviceConfigs == old(suite.serviceConfigs) + Keyed(dest, Restrict(configs, methods))
        decreases todo
      {
        var m :| m in todo;
        PendingStep(configs.Keys, methods, todo, m);
        ApplyStep(old(suite.serviceConfigs), dest, configs, methods, m);
        methods := methods + {m};
        suite.UpdateServiceCBConfig(GenServiceCBKey(dest, m), configs[m]);
        todo := todo - {m};
      }
      PendingDone(configs.Keys, methods, todo);
      RestrictAll(configs, methods);
    }

    /** The second loop: every removed method's key reset to the default config. */
    method ResetRemoved(removed: seq<string>)
      modifies suite`serviceConfigs
      ensures suite.serviceConfigs == old(suite.serviceConfigs) + Keyed(dest, Uniform(Elements(removed), defaultConfig))
    {
      for i := 0 to |removed|
        invariant suite.serviceConfigs == old(suite.serviceConfigs) + Keyed(dest, Uniform(Elements(removed[..i]), defaultConfig))
      {
        ResetStep(old(suite.serviceConfigs), dest, removed, i, defaultConfig);
        suite.UpdateServiceCBConfig(GenServiceCBKey(dest, removed[i]), defaultConfig);
      }
      assert removed[..|removed|] == removed;
    }

    /** The close callback: close the suite first, and deregister only when that succeeded. */
    method CloseCallback(suiteFailure: Option<string>) returns (err: Option<string>)
      modifies suite, client`stopped, client`deregistered
      ensures suite.closed && suite.serviceConfigs == old(suite.serviceConfigs)
      ensures suiteFailure.Some? ==> err == suiteFailure && client.stopped == old(client.stopped)
                                     && client.deregistered == old(client.deregistered)
      ensures suiteFailure.None? ==> err.None? && client.stopped && client.deregistered == old(client.deregistered) + [param]
    {
      err := suite.Close(suiteFailure);
      if err.Some? {
        return;
      }
      err := client.DeregisterConfig(param);
    }
  }

  /**
   * initCircuitBreaker: a fresh suite and retained set, the callback
   * registered, and the snapshot's value applied once before returning; the
   * registration's panic when the key is missing propagates.
   */
  method InitCircuitBreaker(param: ConfigParam, dest: string, client: Client, namespace: map<string, string>,
                            defaultConfig: CBConfig) returns (r: Outcome<CircuitBreakerWatcher>)
    modifies client`listeners
    ensures r.Done? <==> param.key in namespace
    ensures r.Panic? ==> r.reason == KeyNotFoundMessage && client.listeners == old(client.listeners)
    ensures r.Done? ==>
      var w := r.value;
      var d := client.parser.decodeCircuitBreak(param.kind, namespace[param.key]);
      && fresh(w) && fresh(w.suite) && fresh(w.retained)
      && w.param == param && w.dest == dest && w.client == client && w.defaultConfig == defaultConfig
      && client.listeners == old(client.listeners) + [param]
      && w.suite.serviceConfigs == (if d.Ok? then Keyed(dest, d.value) else map[])
      && w.retained.items == (if d.Ok? then d.value.Keys else {})
      && !w.suite.closed
  {
    var suite := new CBSuite();
    var lcb := new Utils.ThreadSafeSet();
    var w := new CircuitBreakerWatcher(param, dest, suite, lcb, defaultConfig, client);
    var reg := client.RegisterConfigCallback(param, namespace);
    if reg.Panic? {
      return Panic(reg.reason);
    }
    w.OnChange(reg.value.data, reg.value.parser);
    ghost var d := client.parser.decodeCircuitBreak(param.kind, namespace[param.key]);
    assert d.Ok? ==> Keyed(dest, Uniform({} - d.value.Keys, defaultConfig)) == map[];
    return Done(w);
  }

  /**
   * WithCircuitBreaker: the ConfigParam for the circuit-break category of
   * (src -> dest), a panic if it cannot be rendered, the caller's hooks applied
   * on top, then initCircuitBreaker.
   */
  method WithCircuitBreaker(dest: string, src: string, client: Client, customs: seq<CustomFunction>,
                            namespace: map<string, string>, defaultConfig: CBConfig)
    returns (r: Outcome<CircuitBreakerWatcher>)
    modifies client`listeners
    ensures var (p, err) := BuildParam(client.engine, ConfigParamConfig(CircuitBreakerConfigName, src, dest),
                                       client.options.clientKeyFormat, client.options.namespaceID, client.options.cluster, []);
      && (err.Some? ==> r == Panic(err.value) && client.listeners == old(client.listeners))
      && (err.None? ==> (r.Done? <==> ApplyHooks(customs, p).key in namespace))
      && (err.None? && r.Panic? ==> r.reason == KeyNotFoundMessage && client.listeners == old(client.listeners))
      && (r.Done? ==>
            var w := r.value;
            && w.param == ApplyHooks(customs, p) && w.dest == dest && w.client == client
            && w.defaultConfig == defaultConfig
            && fresh(w) && fresh(w.suite) && fresh(w.retained)
            && client.listeners == old(client.listeners) + [w.param]
            && var d := client.parser.decodeCircuitBreak(w.param.kind, namespace[w.param.key]);
            && w.suite.serviceConfigs == (if d.Ok? then Keyed(dest, d.value) else map[])
            && w.retained.items == (if d.Ok? then d.value.Keys else {})
            && !w.suite.closed)
  {
    var param, err := client.ClientConfigParam(ConfigParamConfig(CircuitBreakerConfigName, src, dest), []);
    if err.Some? {
      return Panic(err.value);
    }
    param := ApplyCustomFunctions(param, customs);
    r := InitCircuitBreaker(param, dest, client, namespace, defaultConfig);
  }
}
