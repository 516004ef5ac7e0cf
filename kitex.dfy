/**
 * The parts of the Kitex RPC framework that the configuration adapters talk to:
 * the policy shapes a payload decodes into, and the policy sinks (circuit-breaker
 * suite, retry container, RPC-timeout container, limiter option and updater).
 * The sinks are framework objects; here each one only records the state its
 * update operations leave behind, so that the adapters' effects can be stated.
 */
module Kitex {
  import opened Wrappers

  /** circuitbreak.CBConfig (the error rate is a float64 in Kitex). */
  datatype CBConfig = CBConfig(enable: bool, errRate: real, minSample: int)

  /** The callee side of an RPC as the circuit breaker sees it (rpcinfo.EndpointInfo). */
  datatype EndpointInfo = EndpointInfo(serviceName: string, methodName: string)

  /** rpcinfo.RPCInfo, reduced to the callee endpoint it exposes through To(). */
  datatype RPCInfo = RPCInfo(to: EndpointInfo)

  /** The two retry strategies of retry.Policy, each one present or absent. */
  datatype FailurePolicy = FailurePolicy(maxRetryTimes: int)
  datatype BackupPolicy = BackupPolicy(retryDelayMS: int)

  /** retry.Policy: at most one of the two strategies is meant to be set. */
  datatype RetryPolicy = RetryPolicy(enable: bool, failurePolicy: Option<FailurePolicy>, backupPolicy: Option<BackupPolicy>)

  /** rpctimeout.RPCTimeout for one method. */
  datatype RPCTimeout = RPCTimeout(rpcTimeoutMS: int, connTimeoutMS: int)

  /** limiter.LimiterConfig, the decoded limiter payload. */
  datatype LimiterConfig = LimiterConfig(connectionLimit: int, qpsLimit: int)

  /** The two limits of a limit.Option, as an updater receives them. */
  datatype Limits = Limits(maxConnections: int, maxQPS: int)

  /** circuitbreak.CBSuite: one circuit-breaker config per service/method key. */
  class CBSuite {
    var serviceConfigs: map<string, CBConfig>
    var closed: bool

    constructor ()
      ensures serviceConfigs == map[] && !closed
    {
      serviceConfigs := map[];
      closed := false;
    }

    /** UpdateServiceCBConfig: the config for `key` becomes `config`. */
    method UpdateServiceCBConfig(key: string, config: CBConfig)
      modifies this`serviceConfigs
      ensures serviceConfigs == old(serviceConfigs)[key := config]
      ensures closed == old(closed)
    {
      serviceConfigs := serviceConfigs[key := config];
    }

    /**
     * Close. What the suite's own teardown reports is foreign to this model,
     * so it is given as `failure` and returned unchanged.
     */
    method Close(failure: Option<string>) returns (err: Option<string>)
      modifies this
      ensures err == failure && closed
      ensures serviceConfigs == old(serviceConfigs)
    {
      closed := true;
      err := failure;
    }
  }

  /** retry.Container: the retry policy currently applied per method. */
  class RetryContainer {
    var policies: map<string, RetryPolicy>

    constructor ()
      ensures policies == map[]
    {
      policies := map[];
    }

    /** NotifyPolicyChange(method, policy): `policy` now applies to `rpcMethod`. */
    method NotifyPolicyChange(rpcMethod: string, policy: RetryPolicy)
      modifies this
      ensures policies == old(policies)[rpcMethod := policy]
    {
      policies := policies[rpcMethod := policy];
    }

    /** DeletePolicy(method): `rpcMethod` no longer has a retry policy. */
    method DeletePolicy(rpcMethod: string)
      modifies this
      ensures policies == old(policies) - {rpcMethod}
    {
      policies := policies - {rpcMethod};
    }
  }

  /** rpctimeout.Container: records every whole map it is notified with. */
  class TimeoutContainer {
    ghost var notified: seq<map<string, RPCTimeout>>

    constructor ()
      ensures notified == []
    {
      notified := [];
    }

    method NotifyPolicyChange(configs: map<string, RPCTimeout>)
      modifies this
      ensures notified == old(notified) + [configs]
    {
      notified := notified + [configs];
    }
  }

  /** limit.Option, reduced to the two limits the limiter adapter writes. */
  class LimitOption {
    var maxConnections: int
    var maxQPS: int

    /** The zero value `&limit.Option{}`. */
    constructor ()
      ensures maxConnections == 0 && maxQPS == 0
    {
      maxConnections, maxQPS := 0, 0;
    }
  }

  /**
   * limit.Updater: records the limits of every option it is handed.
   * Whether the framework accepts an update is foreign; `accepts` stands for it,
   * one fixed verdict per updater.
   */
  class Updater {
    ghost var received: seq<Limits>
    const accepts: bool

    constructor (accepts: bool)
      ensures received == [] && this.accepts == accepts
    {
      received := [];
      this.accepts := accepts;
    }

    method UpdateLimit(opt: LimitOption) returns (ok: bool)
      modifies this
      ensures received == old(received) + [Limits(opt.maxConnections, opt.maxQPS)]
      ensures ok == accepts
    {
      received := received + [Limits(opt.maxConnections, opt.maxQPS)];
      ok := accepts;
    }
  }
}
