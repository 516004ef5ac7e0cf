/**
 * The server-side limiter adapter (server/limiter.go). One limit.Option is
 * shared by the framework and the change callback. The callback writes the two
 * decoded limits into it and passes it on to the stored updater, if one has
 * been stored yet. The UpdateControl hook hands the current option to a new
 * updater and then stores that updater.
 */
module Limiter {
  import opened Wrappers
  import opened Kitex
  import opened Parser
  import opened Apollo

  /**
   * The two limits after one decode: a successful decode replaces both with
   * the payload's limits, and a failed one leaves both as they were.
   */
  function AfterLimiterChange(current: Limits, d: Result<LimiterConfig>): (r: Limits)
    ensures d.Err? ==> r == current
    ensures d.Ok? ==> r.maxConnections == d.value.connectionLimit && r.maxQPS == d.value.qpsLimit
  {
    if d.Err? then current else Limits(d.value.connectionLimit, d.value.qpsLimit)
  }

  /**
   * The option's limits depend only on the last successful decode: a later
   * successful one overrides an earlier one, and a failed one in between
   * changes nothing.
   */
  lemma AfterLimiterChangeLastWins(current: Limits, d1: Result<LimiterConfig>, d2: Result<LimiterConfig>)
    ensures d2.Ok? ==> AfterLimiterChange(AfterLimiterChange(current, d1), d2) == AfterLimiterChange(current, d2)
    ensures d2.Err? ==> AfterLimiterChange(AfterLimiterChange(current, d1), d2) == AfterLimiterChange(current, d1)
  {
  }

  /** The state initLimitOptions keeps for one service: the option, and the updater slot. */
  class LimitWatcher {
    const param: ConfigParam
    const dest: string
    const opt: LimitOption
    /** The `updater` atomic.Value: empty until UpdateControl runs. */
    var updater: Updater?

    constructor (param: ConfigParam, dest: string, opt: LimitOption)
      ensures this.param == param && this.dest == dest && this.opt == opt && updater == null
    {
      this.param := param;
      this.dest := dest;
      this.opt := opt;
      updater := null;
    }

    ghost function Current(): Limits
      reads opt
    {
      Limits(opt.maxConnections, opt.maxQPS)
    }

    /** opt.UpdateControl: the updater is handed the current limits, then stored. */
    method UpdateControl(u: Updater)
      modifies u, this`updater
      ensures u.received == old(u.received) + [Current()]
      ensures updater == u
    {
      var _ := u.UpdateLimit(opt);
      updater := u;
    }

    /**
     * The change callback: the limits become AfterLimiterChange of the decode
     * result. A stored updater is handed the new limits exactly once, and only
     * after a successful decode. Its verdict is ignored, so the option keeps
     * the new limits even when the updater declines them.
     */
    method OnChange(data: string, parser: ConfigParser)
      modifies opt, updater
      ensures var d := parser.decodeLimiter(param.kind, data);
        && Current() == AfterLimiterChange(old(Current()), d)
        && (updater != null ==> updater.received == old(updater.received) + (if d.Ok? then [Current()] else []))
    {
      var lc := parser.decodeLimiter(param.kind, data);
      if lc.Err? {
        return;
      }
      opt.maxConnections := lc.value.connectionLimit;
      opt.maxQPS := lc.value.qpsLimit;
      var u := updater;
      if u == null {
        return;
      }
      // a declined update is only logged: the option is not rolled back
      var _ := u.UpdateLimit(opt);
    }
  }

  /**
   * initLimitOptions: a zero option and an empty updater slot, the callback
   * registered, and the snapshot's value applied once before returning, so
   * that the first UpdateControl hands the framework the snapshot's limits;
   * the registration's panic when the key is missing propagates.
   */
  method InitLimitOptions(param: ConfigParam, dest: string, client: Client, namespace: map<string, string>)
    returns (r: Outcome<LimitWatcher>)
    modifies client`listeners
    ensures r.Done? <==> param.key in namespace
    ensures r.Panic? ==> r.reason == KeyNotFoundMessage && client.listeners == old(client.listeners)
    ensures r.Done? ==>
      var w := r.value;
      var d := client.parser.decodeLimiter(param.kind, namespace[param.key]);
      && fresh(w) && fresh(w.opt)
      && w.param == param && w.dest == dest && w.updater == null
      && client.listeners == old(client.listeners) + [param]
      && w.Current() == AfterLimiterChange(Limits(0, 0), d)
  {
    var opt := new LimitOption();
    var w := new LimitWatcher(param, dest, opt);
    var reg := client.RegisterConfigCallback(param, namespace);
    if reg.Panic? {
      return Panic(reg.reason);
    }
    w.OnChange(reg.value.data, reg.value.parser);
    return Done(w);
  }

  /**
   * WithLimiter: the server-side ConfigParam for the limiter category of
   * `dest`, with the caller's hooks applied inside ServerConfigParam, a panic
   * if it cannot be rendered, then initLimitOptions. The limiter category's
   * name is a parameter, because its constant is not defined in apollo/apollo.go.
   */
  method WithLimiter(dest: string, client: Client, cfs: seq<CustomFunction>, namespace: map<string, string>,
                     limiterCategory: string) returns (r: Outcome<LimitWatcher>)
    modifies client`listeners
    ensures var (p, err) := BuildParam(client.engine, ConfigParamConfig(limiterCategory, "", dest),
                                       client.options.serverKeyFormat, client.options.namespaceID, client.options.cluster, cfs);
      && (err.Some? ==> r == Panic(err.value) && client.listeners == old(client.listeners))
      && (err.None? ==> (r.Done? <==> p.key in namespace))
      && (err.None? && r.Panic? ==> r.reason == KeyNotFoundMessage && client.listeners == old(client.listeners))
      && (r.Done? ==>
            var w := r.value;
            && w.param == p && w.dest == dest && w.updater == null
            && fresh(w) && fresh(w.opt)
            && client.listeners == old(client.listeners) + [p]
            && w.Current() == AfterLimiterChange(Limits(0, 0), client.parser.decodeLimiter(p.kind, namespace[p.key])))
  {
    var param, err := client.ServerConfigParam(ConfigParamConfig(limiterCategory, "", dest), cfs);
    if err.Some? {
      return Panic(err.value);
    }
    r := InitLimitOptions(param, dest, client, namespace);
  }
}
