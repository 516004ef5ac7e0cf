/**
 * The Apollo configuration client (apollo/apollo.go): option defaulting and
 * validation, the rendering of a ConfigParam from the name templates and the
 * caller's hooks, the synchronous first callback and the change listener.
 *
 * Foreign pieces are parameters: text/template is a TemplateEngine (parse a
 * template, execute it on the service names), agollo.New is `connect`, and the
 * agollo client's namespace snapshot and change/error stream are a map and a
 * finite sequence of events. Callbacks are not run here: every callback
 * invocation is returned as an Invocation, which the adapters consume with
 * their own OnChange methods.
 */
module Apollo {
  import opened Wrappers
  import opened Parser

  const RetryConfigName := "retry"
  const RpcTimeoutConfigName := "rpc_timeout"
  const CircuitBreakerConfigName := "circuit_break"

  const DefaultContent := ""
  const MissingAccessKeyMessage := "[apollo] need accesskey for private namespace"
  const KeyNotFoundMessage := "kitex config : key not found"

  /** The logger the agollo client is given; a nil one is replaced by the Apollo adapter logger. */
  datatype Logger = ApolloLogger | UserLogger(name: string)

  datatype Options = Options(
    configServerURL: string,
    namespaceID: string,
    appID: string,
    cluster: string,
    serverKeyFormat: string,
    clientKeyFormat: string,
    isPrivate: bool,
    accessKey: string,
    customLogger: Option<Logger>,
    configParser: Option<ConfigParser>)

  /** The names a key, namespace or cluster template is rendered from. */
  datatype ConfigParamConfig = ConfigParamConfig(category: string, clientServiceName: string, serverServiceName: string)

  /** Where a configuration item lives and how its payload is typed. */
  datatype ConfigParam = ConfigParam(key: string, nameSpace: string, cluster: string, content: string, kind: ConfigType)

  /** A caller hook that customises a ConfigParam. */
  type CustomFunction = ConfigParam -> ConfigParam

  /**
   * text/template: `parse` reports why a template text is malformed (None if
   * it parses); `execute` renders a parsed template on the service names.
   */
  datatype TemplateEngine = TemplateEngine(
    parse: string -> Option<string>,
    execute: (string, ConfigParamConfig) -> Result<string>)

  /** One call of a registered callback: the raw payload and the parser handed over. */
  datatype Invocation = Invocation(data: string, parser: ConfigParser)

  /** What the listener receives: a namespace's new values, or a long-polling error. */
  datatype Event = Change(newValue: map<string, string>) | Failure(err: string)

  // ---------------------------------------------------------------- New

  /** Every option New fills in has a value. */
  ghost predicate Resolved(o: Options)
  {
    && o.configServerURL != "" && o.namespaceID != "" && o.appID != "" && o.cluster != ""
    && o.serverKeyFormat != "" && o.clientKeyFormat != ""
    && o.customLogger.Some? && o.configParser.Some?
  }

  /** None of the defaults is empty. */
  lemma DefaultsNonEmpty()
    ensures ApolloDefaultConfigServerURL != "" && ApolloNameSpace != "" && ApolloDefaultAppId != ""
    ensures ApolloDefaultCluster != "" && ApolloDefaultServerKey != "" && ApolloDefaultClientKey != ""
  {
    assert |ApolloDefaultConfigServerURL| > 0 && |ApolloNameSpace| > 0 && |ApolloDefaultAppId| > 0;
    assert |ApolloDefaultCluster| > 0 && |ApolloDefaultServerKey| > 0 && |ApolloDefaultClientKey| > 0;
  }

  /** One `if opts.X == "" { opts.X = default }` step of New. */
  function OrDefault(s: string, dflt: string): string
  {
    if s == "" then dflt else s
  }

  /** One `if opts.X == nil { opts.X = default }` step of New. */
  function OrSome<T>(x: Option<T>, dflt: T): Option<T>
  {
    if x.None? then Some(dflt) else x
  }

  /** The options New works with: each empty option replaced by its default. */
  function WithDefaults(opts: Options, json: JsonCodec): Options
  {
    Options(
      OrDefault(opts.configServerURL, ApolloDefaultConfigServerURL),
      OrDefault(opts.namespaceID, ApolloNameSpace),
      OrDefault(opts.appID, ApolloDefaultAppId),
      OrDefault(opts.cluster, ApolloDefaultCluster),
      OrDefault(opts.serverKeyFormat, ApolloDefaultServerKey),
      OrDefault(opts.clientKeyFormat, ApolloDefaultClientKey),
      opts.isPrivate,
      opts.accessKey,
      OrSome(opts.customLogger, ApolloLogger),
      OrSome(opts.configParser, DefaultConfigParse(json)))
  }

  /** Every option New fills in ends with a value. */
  lemma WithDefaultsResolved(opts: Options, json: JsonCodec)
    ensures Resolved(WithDefaults(opts, json))
  {
    DefaultsNonEmpty();
  }

  /** Each empty option gets its own default. */
  lemma WithDefaultsFillsEmpty(opts: Options, json: JsonCodec)
    ensures var o := WithDefaults(opts, json);
      && (opts.configServerURL == "" ==> o.configServerURL == "127.0.0.1:8080")
      && (opts.namespaceID == "" ==> o.namespaceID == "{{.Category}}")
      && (opts.appID == "" ==> o.appID == "KitexApplication")
      && (opts.cluster == "" ==> o.cluster == "default")
      && (opts.serverKeyFormat == "" ==> o.serverKeyFormat == "{{.ServerServiceName}}")
      && (opts.clientKeyFormat == "" ==> o.clientKeyFormat == "{{.ClientServiceName}}.{{.ServerServiceName}}")
      && (opts.customLogger.None? ==> o.customLogger == Some(ApolloLogger))
      && (opts.configParser.None? ==> o.configParser == Some(DefaultConfigParse(json)))
  {
  }

  /** Each option the caller set is kept as it is. */
  lemma WithDefaultsKeepsSet(opts: Options, json: JsonCodec)
    ensures var o := WithDefaults(opts, json);
      && (opts.configServerURL != "" ==> o.configServerURL == opts.configServerURL)
      && (opts.namespaceID != "" ==> o.namespaceID == opts.namespaceID)
      && (opts.appID != "" ==> o.appID == opts.appID)
      && (opts.cluster != "" ==> o.cluster == opts.cluster)
      && (opts.serverKeyFormat != "" ==> o.serverKeyFormat == opts.serverKeyFormat)
      && (opts.clientKeyFormat != "" ==> o.clientKeyFormat == opts.clientKeyFormat)
      && (opts.customLogger.Some? ==> o.customLogger == opts.customLogger)
      && (opts.configParser.Some? ==> o.configParser == opts.configParser)
      && o.isPrivate == opts.isPrivate && o.accessKey == opts.accessKey
  {
  }

  /** Options that are already complete are left alone, so defaulting twice changes nothing. */
  lemma WithDefaultsIdempotent(opts: Options, json: JsonCodec)
    ensures Resolved(opts) ==> WithDefaults(opts, json) == opts
    ensures WithDefaults(WithDefaults(opts, json), json) == WithDefaults(opts, json)
  {
  }

  /** The first error of a sequence of steps run in order, if any. */
  function FirstError(steps: seq<Option<string>>): (r: Option<string>)
    ensures r.None? <==> forall i :: 0 <= i < |steps| ==> steps[i].None?
    ensures r.Some? ==> exists i :: 0 <= i < |steps| && steps[i] == r && forall j :: 0 <= j < i ==> steps[j].None?
  {
    if steps == [] then None
    else if steps[0].Some? then steps[0]
    else
      var r := FirstError(steps[1..]);
      assert r.Some? ==> exists i :: 0 <= i < |steps| - 1 && steps[1..][i] == r && forall j :: 0 <= j < i ==> steps[1..][j].None?;
      r
  }

  /** The first error of a step followed by others. */
  lemma FirstErrorCons(x: Option<string>, rest: seq<Option<string>>)
    ensures FirstError([x] + rest) == if x.Some? then x else FirstError(rest)
  {
    assert ([x] + rest)[1..] == rest;
  }

  /**
   * New: fill in the defaults, refuse a private namespace without an access
   * key, connect, then parse the cluster, namespace, server-key and client-key
   * templates, stopping at the first error.
   */
  method New(opts: Options, json: JsonCodec, engine: TemplateEngine, connect: Options -> Option<string>)
    returns (c: Client?, err: Option<string>)
    ensures err.None? <==> c != null
    ensures opts.isPrivate && opts.accessKey == "" ==> err == Some(MissingAccessKeyMessage)
    ensures !(opts.isPrivate && opts.accessKey == "") ==>
      var o := WithDefaults(opts, json);
      err == FirstError([connect(o), engine.parse(o.cluster), engine.parse(o.namespaceID),
                         engine.parse(o.serverKeyFormat), engine.parse(o.clientKeyFormat)])
    ensures c != null ==>
      && fresh(c) && c.options == WithDefaults(opts, json) && c.engine == engine
      && c.parser == WithDefaults(opts, json).configParser.value
      && c.listeners == [] && !c.stopped && c.deregistered == []
  {
    c := null;
    WithDefaultsResolved(opts, json);
    var o := ApplyDefaults(opts, json);
    if o.isPrivate && o.accessKey == "" {
      err := Some(MissingAccessKeyMessage);
      return;
    }
    var cl, ns, sk, ck := engine.parse(o.cluster), engine.parse(o.namespaceID),
                          engine.parse(o.serverKeyFormat), engine.parse(o.clientKeyFormat);
    FirstErrorCons(connect(o), [cl, ns, sk, ck]);
    FirstErrorCons(cl, [ns, sk, ck]);
    FirstErrorCons(ns, [sk, ck]);
    FirstErrorCons(sk, [ck]);
    FirstErrorCons(ck, []);
    err := connect(o);
    if err.Some? { return; }
    err := cl;
    if err.Some? { return; }
    err := ns;
    if err.Some? { return; }
    err := sk;
    if err.Some? { return; }
    err := ck;
    if err.Some? { return; }
    c := new Client(o, engine, o.configParser.value);
  }

  /** The first half of New: each empty option overwritten with its default, one after the other. */
  method ApplyDefaults(opts: Options, json: JsonCodec) returns (o: Options)
    ensures o == WithDefaults(opts, json)
  {
    o := opts;
    o := o.(configServerURL := OrDefault(o.configServerURL, ApolloDefaultConfigServerURL));
    o := o.(customLogger := OrSome(o.customLogger, ApolloLogger));
    o := o.(configParser := OrSome(o.configParser, DefaultConfigParse(json)));
    o := o.(appID := OrDefault(o.appID, ApolloDefaultAppId));
    o := o.(namespaceID := OrDefault(o.namespaceID, ApolloNameSpace));
    o := o.(cluster := OrDefault(o.cluster, ApolloDefaultCluster));
    o := o.(serverKeyFormat := OrDefault(o.serverKeyFormat, ApolloDefaultServerKey));
    o := o.(clientKeyFormat := OrDefault(o.clientKeyFormat, ApolloDefaultClientKey));
  }

  // ---------------------------------------------------------------- ConfigParam

  /** The hooks applied in order: the first hook sees the rendered ConfigParam first. */
  function ApplyHooks(cfs: seq<CustomFunction>, p: ConfigParam): ConfigParam
    decreases |cfs|
  {
    if cfs == [] then p else cfs[|cfs| - 1](ApplyHooks(cfs[..|cfs| - 1], p))
  }

  /** Running a hook first and the rest after is the same as running the whole list. */
  lemma {:induction false} ApplyHooksFirst(f: CustomFunction, cfs: seq<CustomFunction>, p: ConfigParam)
    ensures ApplyHooks([f] + cfs, p) == ApplyHooks(cfs, f(p))
    decreases |cfs|
  {
    if cfs == [] {
      assert ([f] + cfs)[..0] == [];
    } else {
      var n := |cfs|;
      assert ([f] + cfs)[..n] == [f] + cfs[..n - 1];
      ApplyHooksFirst(f, cfs[..n - 1], p);
    }
  }

  /**
   * The last hook that sets a field decides it: if `f` gives the field `sel`
   * the value `v` and no later hook touches that field, the result has `v`.
   */
  lemma {:induction false} LastHookDecides<V>(pre: seq<CustomFunction>, f: CustomFunction, post: seq<CustomFunction>,
                                               p: ConfigParam, sel: ConfigParam -> V, v: V)
    requires forall q :: sel(f(q)) == v
    requires forall i, q :: 0 <= i < |post| ==> sel(post[i](q)) == sel(q)
    ensures sel(ApplyHooks(pre + [f] + post, p)) == v
    decreases |post|
  {
    if post == [] {
      assert (pre + [f] + post)[..|pre|] == pre;
    } else {
      var n := |post|;
      assert (pre + [f] + post)[..|pre| + n] == pre + [f] + post[..n - 1];
      LastHookDecides(pre, f, post[..n - 1], p, sel, v);
      assert sel(post[n - 1](ApplyHooks(pre + [f] + post[..n - 1], p))) == v;
    }
  }

  /** Apply caller hooks in order (the `for _, cf := range cfs { cf(&param) }` loops). */
  method ApplyCustomFunctions(param: ConfigParam, cfs: seq<CustomFunction>) returns (p: ConfigParam)
    ensures p == ApplyHooks(cfs, param)
  {
    p := param;
    for i := 0 to |cfs|
      invariant p == ApplyHooks(cfs[..i], param)
    {
      assert cfs[..i + 1][..i] == cfs[..i];
      p := cfs[i](p);
    }
    assert cfs[..|cfs|] == cfs;
  }

  /**
   * What configParam returns for the given key, namespace and cluster
   * templates: JSON and empty content to start with, then Key, NameSpace and
   * Cluster rendered in that order, returning the partly filled ConfigParam at
   * the first render error, and the hooks applied only when all three rendered.
   */
  ghost function BuildParam(engine: TemplateEngine, cpc: ConfigParamConfig, keyT: string, nameSpaceT: string,
                            clusterT: string, cfs: seq<CustomFunction>): (ConfigParam, Option<string>)
  {
    var start := ConfigParam("", "", "", DefaultContent, JSON);
    var k := engine.execute(keyT, cpc);
    if k.Err? then (start, Some(k.msg))
    else
      var n := engine.execute(nameSpaceT, cpc);
      if n.Err? then (start.(key := k.value), Some(n.msg))
      else
        var c := engine.execute(clusterT, cpc);
        if c.Err? then (start.(key := k.value, nameSpace := n.value), Some(c.msg))
        else (ApplyHooks(cfs, ConfigParam(k.value, n.value, c.value, DefaultContent, JSON)), None)
  }

  /**
   * configParam fails exactly when one of the three renders fails, and never
   * runs the hooks then: the error is the failed render's, the failed field
   * and those after it are empty, and the fields rendered before it are kept.
   */
  lemma BuildParamFailsOnRender(engine: TemplateEngine, cpc: ConfigParamConfig, keyT: string, nameSpaceT: string,
                                clusterT: string, cfs: seq<CustomFunction>)
    ensures var (p, err) := BuildParam(engine, cpc, keyT, nameSpaceT, clusterT, cfs);
      && (err.None? <==> engine.execute(keyT, cpc).Ok? && engine.execute(nameSpaceT, cpc).Ok? && engine.execute(clusterT, cpc).Ok?)
      && (err.Some? ==> p.kind == JSON && p.content == "" && p.cluster == "")
      && (var k := engine.execute(keyT, cpc);
          var n := engine.execute(nameSpaceT, cpc);
          var c := engine.execute(clusterT, cpc);
          && (k.Err? ==> err == Some(k.msg) && p.key == "" && p.nameSpace == "")
          && (k.Ok? && n.Err? ==> err == Some(n.msg) && p.key == k.value && p.nameSpace == "")
          && (k.Ok? && n.Ok? && c.Err? ==> err == Some(c.msg) && p.key == k.value && p.nameSpace == n.value))
  {
  }

  /** With no hooks, a successful configParam is exactly the three rendered names, typed JSON, with no content. */
  lemma BuildParamWithoutHooks(engine: TemplateEngine, cpc: ConfigParamConfig, keyT: string, nameSpaceT: string, clusterT: string)
    requires engine.execute(keyT, cpc).Ok? && engine.execute(nameSpaceT, cpc).Ok? && engine.execute(clusterT, cpc).Ok?
    ensures BuildParam(engine, cpc, keyT, nameSpaceT, clusterT, []).0
         == ConfigParam(engine.execute(keyT, cpc).value, engine.execute(nameSpaceT, cpc).value,
                        engine.execute(clusterT, cpc).value, "", "json")
  {
  }

  // ---------------------------------------------------------------- the listener

  /**
   * The payloads the listener dispatches for `key`, in event order: the key's
   * new value for each change that carries it, nothing for a change that
   * lacks it, and nothing from the first error on.
   */
  function Listen(key: string, events: seq<Event>): (r: seq<string>)
    ensures |r| <= |events|
  {
    if events == [] then []
    else match events[0]
      case Failure(_) => []
      case Change(nv) => Dispatched(key, nv) + Listen(key, events[1..])
  }

  /** What one change dispatches for `key`: its new value if it carries the key, else nothing. */
  function Dispatched(key: string, nv: map<string, string>): seq<string>
  {
    if key in nv then [nv[key]] else []
  }

  /** Some event of the stretch is an error. */
  ghost predicate Failed(events: seq<Event>)
  {
    events != [] && (events[0].Failure? || Failed(events[1..]))
  }

  /** Listening to two stretches of events is listening to the first, then to the second if no error ended it. */
  lemma {:induction false} ListenAppend(key: string, a: seq<Event>, b: seq<Event>)
    ensures Listen(key, a + b) == Listen(key, a) + (if Failed(a) then [] else Listen(key, b))
    decreases |a|
  {
    if a == [] {
      assert a + b == b;
    } else if a[0].Failure? {
      assert (a + b)[0] == a[0];
    } else {
      ListenAppend(key, a[1..], b);
      ListenAppendChange(key, a, b);
    }
  }

  /** The inductive step of ListenAppend, for a stretch that starts with a change. */
  lemma ListenAppendChange(key: string, a: seq<Event>, b: seq<Event>)
    requires a != [] && a[0].Change?
    requires Listen(key, a[1..] + b) == Listen(key, a[1..]) + (if Failed(a[1..]) then [] else Listen(key, b))
    ensures Listen(key, a + b) == Listen(key, a) + (if Failed(a) then [] else Listen(key, b))
  {
    var ab := a + b;
    assert ab[0] == a[0] && ab[1..] == a[1..] + b;
    ListenChangeHead(key, ab);
    ListenChangeHead(key, a);
    var d := Dispatched(key, a[0].newValue);
    SeqAssoc(d, Listen(key, a[1..]), if Failed(a[1..]) then [] else Listen(key, b));
  }

  /** Listening to a stretch that starts with a change: that change's dispatch, then the rest. */
  lemma ListenChangeHead(key: string, s: seq<Event>)
    requires s != [] && s[0].Change?
    ensures Listen(key, s) == Dispatched(key, s[0].newValue) + Listen(key, s[1..])
    ensures Failed(s) == Failed(s[1..])
  {
  }

  /** An error ends the loop: nothing after it is ever dispatched. */
  lemma ListenStopsAtFailure(key: string, a: seq<Event>, e: string, b: seq<Event>)
    ensures Listen(key, a + [Failure(e)] + b) == Listen(key, a)
  {
    ListenAppend(key, a, [Failure(e)] + b);
    assert a + [Failure(e)] + b == a + ([Failure(e)] + b);
  }

  /** A change without the key is skipped: it dispatches nothing and does not end the loop. */
  lemma ListenSkipsMissingKey(key: string, a: seq<Event>, nv: map<string, string>, b: seq<Event>)
    requires key !in nv
    ensures Listen(key, a + [Change(nv)] + b) == Listen(key, a + b)
  {
    ListenAppend(key, a, [Change(nv)] + b);
    ListenAppend(key, a, b);
    assert a + [Change(nv)] + b == a + ([Change(nv)] + b);
    assert ([Change(nv)] + b)[0] == Change(nv) && ([Change(nv)] + b)[1..] == b;
    assert Listen(key, [Change(nv)] + b) == Listen(key, b);
  }

  /** Every dispatched payload is the key's value in some change event. */
  lemma {:induction false} ListenFromChanges(key: string, events: seq<Event>, j: nat)
    requires j < |Listen(key, events)|
    ensures exists i :: 0 <= i < |events| && events[i].Change? && key in events[i].newValue
                        && events[i].newValue[key] == Listen(key, events)[j]
    decreases |events|
  {
    match events[0]
    case Change(nv) =>
      if key in nv && j == 0 {
        assert events[0].newValue[key] == Listen(key, events)[j];
      } else {
        var j' := if key in nv then j - 1 else j;
        ListenFromChanges(key, events[1..], j');
        var i :| 0 <= i < |events[1..]| && events[1..][i].Change? && key in events[1..][i].newValue
                 && events[1..][i].newValue[key] == Listen(key, events[1..])[j'];
        assert events[i + 1] == events[1..][i];
      }
  }

  /** When every event is a change carrying the key, each one is dispatched, in order. */
  lemma {:induction false} ListenAllChanges(key: string, events: seq<Event>)
    requires forall i :: 0 <= i < |events| ==> events[i].Change? && key in events[i].newValue
    ensures |Listen(key, events)| == |events|
    ensures forall i :: 0 <= i < |events| ==> Listen(key, events)[i] == events[i].newValue[key]
    decreases |events|
  {
    if events != [] {
      ListenAllChanges(key, events[1..]);
    }
  }

  /** One step of Listen at position `i`. */
  lemma ListenUnfold(key: string, events: seq<Event>, i: nat)
    requires i < |events|
    ensures events[i].Failure? ==> Listen(key, events[i..]) == []
    ensures events[i].Change? ==>
      Listen(key, events[i..]) == Dispatched(key, events[i].newValue) + Listen(key, events[i + 1..])
  {
    assert events[i..][0] == events[i] && events[i..][1..] == events[i + 1..];
  }

  /**
   * The listener loop's step: with `before` dispatched so far and Listen on
   * the events from `i` still to come, an error at `i` leaves nothing to come,
   * and a change at `i` adds what it dispatches and leaves Listen on the events
   * after `i`.
   */
  lemma ListenLoopStep(key: string, events: seq<Event>, i: nat, before: seq<string>)
    requires i < |events|
    requires before + Listen(key, events[i..]) == Listen(key, events)
    ensures events[i].Failure? ==> before == Listen(key, events)
    ensures events[i].Change? ==>
      (before + Dispatched(key, events[i].newValue)) + Listen(key, events[i + 1..]) == Listen(key, events)
  {
    ListenUnfold(key, events, i);
    if events[i].Failure? {
      assert before + [] == before;
    }
  }

  /** The payloads of a sequence of invocations. */
  function Payloads(invs: seq<Invocation>): (r: seq<string>)
    ensures |r| == |invs| && forall i :: 0 <= i < |invs| ==> r[i] == invs[i].data
  {
    seq(|invs|, i requires 0 <= i < |invs| => invs[i].data)
  }

  /** One more invocation adds its payload at the end. */
  lemma PayloadsSnoc(invs: seq<Invocation>, x: Invocation)
    ensures Payloads(invs + [x]) == Payloads(invs) + [x.data]
  {
  }

  // ---------------------------------------------------------------- the client

  class Client {
    /** The options after defaulting; the four templates are parsed from them. */
    const options: Options
    const engine: TemplateEngine
    var parser: ConfigParser
    /** The ConfigParams a listener was started for, in order. */
    var listeners: seq<ConfigParam>
    /** Whether DeregisterConfig has stopped the agollo client. */
    var stopped: bool
    /** Every ConfigParam DeregisterConfig was called with. */
    ghost var deregistered: seq<ConfigParam>

    constructor (options: Options, engine: TemplateEngine, parser: ConfigParser)
      ensures this.options == options && this.engine == engine && this.parser == parser
      ensures listeners == [] && !stopped && deregistered == []
    {
      this.options := options;
      this.engine := engine;
      this.parser := parser;
      listeners := [];
      stopped := false;
      deregistered := [];
    }

    /** SetParser: every later callback invocation is handed `p`. */
    method SetParser(p: ConfigParser)
      modifies this`parser
      ensures parser == p
    {
      parser := p;
    }

    /** configParam with the given key template and the client's namespace and cluster templates. */
    method ConfigParamFor(cpc: ConfigParamConfig, keyT: string, cfs: seq<CustomFunction>)
      returns (param: ConfigParam, err: Option<string>)
      ensures (param, err) == BuildParam(engine, cpc, keyT, options.namespaceID, options.cluster, cfs)
    {
      param := ConfigParam("", "", "", DefaultContent, JSON);
      var r := engine.execute(keyT, cpc);
      param := param.(key := if r.Ok? then r.value else "");
      if r.Err? { err := Some(r.msg); return; }
      r := engine.execute(options.namespaceID, cpc);
      param := param.(nameSpace := if r.Ok? then r.value else "");
      if r.Err? { err := Some(r.msg); return; }
      r := engine.execute(options.cluster, cpc);
      param := param.(cluster := if r.Ok? then r.value else "");
      if r.Err? { err := Some(r.msg); return; }
      param := ApplyCustomFunctions(param, cfs);
      err := None;
    }

    /** ServerConfigParam: the key is rendered with the server-key template. */
    method ServerConfigParam(cpc: ConfigParamConfig, cfs: seq<CustomFunction>) returns (param: ConfigParam, err: Option<string>)
      ensures (param, err) == BuildParam(engine, cpc, options.serverKeyFormat, options.namespaceID, options.cluster, cfs)
    {
      param, err := ConfigParamFor(cpc, options.serverKeyFormat, cfs);
    }

    /** ClientConfigParam: the key is rendered with the client-key template. */
    method ClientConfigParam(cpc: ConfigParamConfig, cfs: seq<CustomFunction>) returns (param: ConfigParam, err: Option<string>)
      ensures (param, err) == BuildParam(engine, cpc, options.clientKeyFormat, options.namespaceID, options.cluster, cfs)
    {
      param, err := ConfigParamFor(cpc, options.clientKeyFormat, cfs);
    }

    /** DeregisterConfig stops the whole agollo client, whatever `cfg` is, and never fails. */
    method DeregisterConfig(cfg: ConfigParam) returns (err: Option<string>)
      modifies this`stopped, this`deregistered
      ensures stopped && err.None?
      ensures deregistered == old(deregistered) + [cfg]
    {
      stopped := true;
      deregistered := deregistered + [cfg];
      err := None;
    }

    /**
     * RegisterConfigCallback, given the snapshot of `param.nameSpace`: with the
     * key present, one invocation with its value and the current parser, and a
     * listener started for `param`; with the key absent, a panic, no invocation
     * and no listener.
     */
    method RegisterConfigCallback(param: ConfigParam, namespace: map<string, string>) returns (r: Outcome<Invocation>)
      modifies this`listeners
      ensures param.key in namespace <==> r.Done?
      ensures r.Done? ==> r.value == Invocation(namespace[param.key], parser)
                          && listeners == old(listeners) + [param]
      ensures r.Panic? ==> r.reason == KeyNotFoundMessage && listeners == old(listeners)
    {
      if param.key !in namespace {
        return Panic(KeyNotFoundMessage);
      }
      r := Done(Invocation(namespace[param.key], parser));
      listeners := listeners + [param];
    }

    /** One turn of the listener loop: dispatch the key's new value, skip a change without it, stop on an error. */
    method OnEvent(param: ConfigParam, ev: Event) returns (dispatch: Option<Invocation>, stop: bool)
      ensures stop <==> ev.Failure?
      ensures dispatch.Some? <==> ev.Change? && param.key in ev.newValue
      ensures dispatch.Some? ==> dispatch.value == Invocation(ev.newValue[param.key], parser)
    {
      match ev
      case Failure(_) =>
        dispatch, stop := None, true;
      case Change(nv) =>
        stop := false;
        if param.key in nv {
          dispatch := Some(Invocation(nv[param.key], parser));
        } else {
          dispatch := None;
        }
    }

    /** listenConfig over a finite event stream: the invocations are Listen's payloads, each with the current parser. */
    method ListenConfig(param: ConfigParam, events: seq<Event>) returns (out: seq<Invocation>)
      ensures Payloads(out) == Listen(param.key, events)
      ensures forall i :: 0 <= i < |out| ==> out[i].parser == parser
    {
      out := [];
      var i := 0;
      while i < |events|
        invariant 0 <= i <= |events|
        invariant forall j :: 0 <= j < |out| ==> out[j].parser == parser
        invariant Payloads(out) + Listen(param.key, events[i..]) == Listen(param.key, events)
      {
        var d, stop := OnEvent(param, events[i]);
        ListenLoopStep(param.key, events, i, Payloads(out));
        if stop {
          return;
        }
        if d.Some? {
          PayloadsSnoc(out, d.value);
          out := out + [d.value];
        }
        i := i + 1;
      }
      assert events[i..] == [];
      assert Payloads(out) + [] == Payloads(out);
    }
  }
}
