/**
 * The client-side retry adapter (client/retry.go). The change callback decodes
 * a method -> policy map. It applies each entry that sets exactly one of the
 * two retry strategies, skips the others, and deletes the policy of every
 * method that was in the previous payload and is missing from this one.
 */
module Retry {
  import opened Wrappers
  import opened Kitex
  import opened Parser
  import opened Apollo
  import Utils

  /** A policy the callback hands to the container: exactly one of the two strategies is set. */
  predicate Applicable(p: RetryPolicy)
  {
    p.failurePolicy.Some? != p.backupPolicy.Some?
  }

  /** The entries of a payload that the callback applies. */
  function Accepted(payload: map<string, RetryPolicy>): map<string, RetryPolicy>
  {
    map m | m in payload && Applicable(payload[m]) :: payload[m]
  }

  /**
   * The container's policies after one successful change: each applicable
   * entry written over the old policies, then every method retained before and
   * missing now deleted. An entry that is in the payload but not applicable
   * still counts as present, so it is neither written nor deleted.
   */
  function AfterRetryChange(policies: map<string, RetryPolicy>, payload: map<string, RetryPolicy>,
                            previous: set<string>): (r: map<string, RetryPolicy>)
    ensures forall m | m in r :: (m in payload && Applicable(payload[m]) && r[m] == payload[m])
                                 || (m in policies && r[m] == policies[m])
  {
    (policies + Accepted(payload)) - (previous - payload.Keys)
  }

  /** An entry with exactly one strategy set becomes that method's policy. */
  lemma AfterRetryChangeApplies(policies: map<string, RetryPolicy>, payload: map<string, RetryPolicy>,
                                previous: set<string>, m: string)
    requires m in payload && Applicable(payload[m])
    ensures m in AfterRetryChange(policies, payload, previous)
    ensures AfterRetryChange(policies, payload, previous)[m] == payload[m]
  {
  }

  /**
   * An entry with both strategies set, or with neither, leaves that method as
   * it was: its earlier policy is kept, and no policy appears if it had none.
   */
  lemma AfterRetryChangeKeepsRejected(policies: map<string, RetryPolicy>, payload: map<string, RetryPolicy>,
                                      previous: set<string>, m: string)
    requires m in payload && !Applicable(payload[m])
    ensures m in AfterRetryChange(policies, payload, previous) <==> m in policies
    ensures m in policies ==> AfterRetryChange(policies, payload, previous)[m] == policies[m]
  {
  }

  /** A method retained before and missing from the payload loses its policy. */
  lemma AfterRetryChangeDeletes(policies: map<string, RetryPolicy>, payload: map<string, RetryPolicy>,
                                previous: set<string>, m: string)
    requires m in previous && m !in payload
    ensures m !in AfterRetryChange(policies, payload, previous)
  {
  }

  /** A method neither in the payload nor retained before keeps its policy, or its absence. */
  lemma AfterRetryChangeKeepsOthers(policies: map<string, RetryPolicy>, payload: map<string, RetryPolicy>,
                                    previous: set<string>, m: string)
    requires m !in payload && m !in previous
    ensures m in AfterRetryChange(policies, payload, previous) <==> m in policies
    ensures m in policies ==> AfterRetryChange(policies, payload, previous)[m] == policies[m]
  {
  }

  /**
   * Delivering the same payload a second time, once the retained set is its
   * method set, changes nothing more.
   */
  lemma AfterRetryChangeRedelivery(policies: map<string, RetryPolicy>, payload: map<string, RetryPolicy>,
                                   previous: set<string>)
    ensures var once := AfterRetryChange(policies, payload, previous);
      AfterRetryChange(once, payload, payload.Keys) == once
  {
    var once := AfterRetryChange(policies, payload, previous);
    assert payload.Keys - payload.Keys == {};
    forall m | m in Accepted(payload)
      ensures m in once && once[m] == Accepted(payload)[m]
    {
      AfterRetryChangeApplies(policies, payload, previous, m);
    }
  }

  /** Accepting the entries of one more method of the payload. */
  lemma AcceptedStep(payload: map<string, RetryPolicy>, ms: set<string>, m: string)
    requires m in payload
    ensures Accepted(Restrict(payload, ms + {m})) ==
      if Applicable(payload[m]) then Accepted(Restrict(payload, ms))[m := payload[m]]
      else Accepted(Restrict(payload, ms))
  {
    RestrictInsert(payload, ms, m);
  }

  /** The state initRetryContainer keeps for one destination, and its two callbacks. */
  class RetryWatcher {
    const param: ConfigParam
    const dest: string
    const container: RetryContainer
    /** The methods of the last successful payload (`ts`). */
    const retained: Utils.ThreadSafeSet
    const client: Client

    constructor (param: ConfigParam, dest: string, container: RetryContainer, retained: Utils.ThreadSafeSet,
                 client: Client)
      ensures this.param == param && this.dest == dest && this.container == container
      ensures this.retained == retained && this.client == client
    {
      this.param := param;
      this.dest := dest;
      this.container := container;
      this.retained := retained;
      this.client := client;
    }

    /**
     * The change callback: on a decode error nothing changes; otherwise the
     * container ends as AfterRetryChange says and the retained methods are
     * all the payload's methods, the rejected ones included.
     */
    method OnChange(data: string, parser: ConfigParser)
      modifies container, retained
      ensures var d := parser.decodeRetry(param.kind, data);
        if d.Err? then
          container.policies == old(container.policies) && retained.items == old(retained.items)
        else
          && container.policies == AfterRetryChange(old(container.policies), d.value, old(retained.items))
          && retained.items == d.value.Keys
    {
      var decoded := parser.decodeRetry(param.kind, data);
      if decoded.Err? {
        return;
      }
      var methods := ApplyPolicies(decoded.value);
      var removed := retained.DiffAndEmplace(methods);
      DeleteRemoved(removed);
    }

    /**
     * The first loop: every method goes into the returned set before its
     * entry is checked, and only an entry with exactly one strategy set is
     * handed to the container.
     */
    method ApplyPolicies(rcs: map<string, RetryPolicy>) returns (methods: set<string>)
      modifies container
      ensures methods == rcs.Keys
      ensures container.policies == old(container.policies) + Accepted(rcs)
    {
      methods := {};
      var todo := rcs.Keys;
      while todo != {}
        invariant methods <= rcs.Keys && todo == rcs.Keys - methods
        invariant container.policies == old(container.policies) + Accepted(Restrict(rcs, methods))
        decreases todo
      {
        var m :| m in todo;
        var policy := rcs[m];
        PendingStep(rcs.Keys, methods, todo, m);
        AcceptedStep(rcs, methods, m);
        methods := methods + {m};
        if policy.backupPolicy.Some? && policy.failurePolicy.Some? {
          // both strategies set: skipped
        } else if policy.backupPolicy.None? && policy.failurePolicy.None? {
          // neither strategy set: skipped
        } else {
          container.NotifyPolicyChange(m, policy);
        }
        todo := todo - {m};
      }
      PendingDone(rcs.Keys, methods, todo);
      RestrictAll(rcs, methods);
    }

    /** The second loop: the policy of every removed method deleted. */
    method DeleteRemoved(removed: seq<string>)
      modifies container
      ensures container.policies == old(container.policies) - Elements(removed)
    {
      for i := 0 to |removed|
        invariant container.policies == old(container.policies) - Elements(removed[..i])
      {
        ElementsSnoc(removed, i);
        container.DeletePolicy(removed[i]);
      }
      assert removed[..|removed|] == removed;
    }

    /** The deregistration close callback: stop the client. */
    method CloseCallback() returns (err: Option<string>)
      modifies client`stopped, client`deregistered
      ensures err.None? && client.stopped && client.deregistered == old(client.deregistered) + [param]
    {
      err := client.DeregisterConfig(param);
    }
  }

  /**
   * initRetryContainer: a fresh container and retained set, the callback
   * registered, and the snapshot's value applied once before returning; the
   * registration's panic when the key is missing propagates.
   */
  method InitRetryContainer(param: ConfigParam, dest: string, client: Client, namespace: map<string, string>)
    returns (r: Outcome<RetryWatcher>)
    modifies client`listeners
    ensures r.Done? <==> param.key in namespace
    ensures r.Panic? ==> r.reason == KeyNotFoundMessage && client.listeners == old(client.listeners)
    ensures r.Done? ==>
      var w := r.value;
      var d := client.parser.decodeRetry(param.kind, namespace[param.key]);
      && fresh(w) && fresh(w.container) && fresh(w.retained)
      && w.param == param && w.dest == dest && w.client == client
      && client.listeners == old(client.listeners) + [param]
      && w.container.policies == (if d.Ok? then Accepted(d.value) else map[])
      && w.retained.items == (if d.Ok? then d.value.Keys else {})
  {
    var container := new RetryContainer();
    var ts := new Utils.ThreadSafeSet();
    var w := new RetryWatcher(param, dest, container, ts, client);
    var reg := client.RegisterConfigCallback(param, namespace);
    if reg.Panic? {
      return Panic(reg.reason);
    }
    w.OnChange(reg.value.data, reg.value.parser);
    ghost var d := client.parser.decodeRetry(param.kind, namespace[param.key]);
    assert d.Ok? ==> AfterRetryChange(map[], d.value, {}) == Accepted(d.value);
    return Done(w);
  }

  /**
   * WithRetryPolicy: the ConfigParam for the retry category of (src -> dest),
   * a panic if it cannot be rendered, the caller's hooks applied on top, then
   * initRetryContainer.
   */
  method WithRetryPolicy(dest: string, src: string, client: Client, customs: seq<CustomFunction>,
                         namespace: map<string, string>) returns (r: Outcome<RetryWatcher>)
    modifies client`listeners
    ensures var (p, err) := BuildParam(client.engine, ConfigParamConfig(RetryConfigName, src, dest),
                                       client.options.clientKeyFormat, client.options.namespaceID, client.options.cluster, []);
      && (err.Some? ==> r == Panic(err.value) && client.listeners == old(client.listeners))
      && (err.None? ==> (r.Done? <==> ApplyHooks(customs, p).key in namespace))
      && (err.None? && r.Panic? ==> r.reason == KeyNotFoundMessage && client.listeners == old(client.listeners))
      && (r.Done? ==>
            var w := r.value;
            && w.param == ApplyHooks(customs, p) && w.dest == dest && w.client == client
            && fresh(w) && fresh(w.container) && fresh(w.retained)
            && client.listeners == old(client.listeners) + [w.param]
            && var d := client.parser.decodeRetry(w.param.kind, namespace[w.param.key]);
            && w.container.policies == (if d.Ok? then Accepted(d.value) else map[])
            && w.retained.items == (if d.Ok? then d.value.Keys else {}))
  {
    var param, err := client.ClientConfigParam(ConfigParamConfig(RetryConfigName, src, dest), []);
    if err.Some? {
      return Panic(err.value);
    }
    param := ApplyCustomFunctions(param, customs);
    r := InitRetryContainer(param, dest, client, namespace);
  }
}
