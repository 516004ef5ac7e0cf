/**
 * The client-side RPC-timeout adapter (client/rpc_timetout.go): the change
 * callback forwards the whole decoded method -> timeout map to the container,
 * and the close callback deregisters the same ConfigParam.
 */
module RpcTimeout {
  import opened Wrappers
  import opened Kitex
  import opened Parser
  import opened Apollo

  /** The state initRPCTimeoutContainer keeps for one destination, and its two callbacks. */
  class TimeoutWatcher {
    const param: ConfigParam
    const dest: string
    const container: TimeoutContainer
    const client: Client

    constructor (param: ConfigParam, dest: string, container: TimeoutContainer, client: Client)
      ensures this.param == param && this.dest == dest && this.container == container && this.client == client
    {
      this.param := param;
      this.dest := dest;
      this.container := container;
      this.client := client;
    }

    /**
     * The change callback: on a decode error the container hears nothing;
     * otherwise it is notified once, with exactly the decoded map.
     */
    method OnChange(data: string, parser: ConfigParser)
      modifies container
      ensures var d := parser.decodeRPCTimeout(param.kind, data);
        container.notified == old(container.notified) + (if d.Ok? then [d.value] else [])
    {
      var configs := parser.decodeRPCTimeout(param.kind, data);
      if configs.Err? {
        return;
      }
      container.NotifyPolicyChange(configs.value);
    }

    /** The close callback: deregister the param the callback was registered with. */
    method CloseCallback() returns (err: Option<string>)
      modifies client`stopped, client`deregistered
      ensures err.None? && client.stopped && client.deregistered == old(client.deregistered) + [param]
    {
      err := client.DeregisterConfig(param);
    }
  }

  /**
   * initRPCTimeoutContainer: a fresh container, the callback registered, and
   * the snapshot's value forwarded once before returning; the registration's
   * panic when the key is missing propagates.
   */
  method InitRPCTimeoutContainer(param: ConfigParam, dest: string, client: Client, namespace: map<string, string>)
    returns (r: Outcome<TimeoutWatcher>)
    modifies client`listeners
    ensures r.Done? <==> param.key in namespace
    ensures r.Panic? ==> r.reason == KeyNotFoundMessage && client.listeners == old(client.listeners)
    ensures r.Done? ==>
      var w := r.value;
      var d := client.parser.decodeRPCTimeout(param.kind, namespace[param.key]);
      && fresh(w) && fresh(w.container)
      && w.param == param && w.dest == dest && w.client == client
      && client.listeners == old(client.listeners) + [param]
      && w.container.notified == (if d.Ok? then [d.value] else [])
  {
    var container := new TimeoutContainer();
    var w := new TimeoutWatcher(param, dest, container, client);
    var reg := client.RegisterConfigCallback(param, namespace);
    if reg.Panic? {
      return Panic(reg.reason);
    }
    w.OnChange(reg.value.data, reg.value.parser);
    return Done(w);
  }

  /**
   * WithRPCTimeout: the ConfigParam for the rpc_timeout category of
   * (src -> dest), with the caller's hooks applied inside ClientConfigParam,
   * a panic if it cannot be rendered, then initRPCTimeoutContainer, whose
   * watcher's close callback deregisters that same param.
   */
  method WithRPCTimeout(dest: string, src: string, client: Client, cfs: seq<CustomFunction>,
                        namespace: map<string, string>) returns (r: Outcome<TimeoutWatcher>)
    modifies client`listeners
    ensures var (p, err) := BuildParam(client.engine, ConfigParamConfig(RpcTimeoutConfigName, src, dest),
                                       client.options.clientKeyFormat, client.options.namespaceID, client.options.cluster, cfs);
      && (err.Some? ==> r == Panic(err.value) && client.listeners == old(client.listeners))
      && (err.None? ==> (r.Done? <==> p.key in namespace))
      && (err.None? && r.Panic? ==> r.reason == KeyNotFoundMessage && client.listeners == old(client.listeners))
      && (r.Done? ==>
            var w := r.value;
            && w.param == p && w.dest == dest && w.client == client
            && fresh(w) && fresh(w.container)
            && client.listeners == old(client.listeners) + [p]
            && var d := client.parser.decodeRPCTimeout(p.kind, namespace[p.key]);
            && w.container.notified == (if d.Ok? then [d.value] else []))
  {
    var param, err := client.ClientConfigParam(ConfigParamConfig(RpcTimeoutConfigName, src, dest), cfs);
    if err.Some? {
      return Panic(err.value);
    }
    r := InitRPCTimeoutContainer(param, dest, client, namespace);
  }
}
