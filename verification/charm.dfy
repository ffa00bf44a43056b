/**
  The charm's two lifecycle handlers (`_on_mysql_haproxy_pebble_ready`,
  `_on_config_changed`) and the restart reconciler they share
  (`_restart_haproxy`), as pure functions from the workload container's state
  to the ordered log of calls they make and the unit status they leave.

  The workload's process supervisor (Pebble) is not modelled; its answers are
  inputs (`Container`) and its failures are a `Connection` that drops after a
  given number of calls. `Apply` is a small abstraction of how the logged calls
  change the container, used to state what the handlers achieve.
 */
module Charm {
  import opened Options
  import HaproxyConfig

  const ContainerName := "mysql-haproxy"
  const ServiceName := "mysql-haproxy"
  const ConfigPath := "/configs/haproxy.cfg"
  const HaproxyUser := "haproxy"
  /** Owner read/write only, 0o600. */
  const ConfigFileMode := 0x180
  const StartedMessage := "HAProxy started in the workload container"
  const WaitingMessage := "Waiting for " + ContainerName + " container to start"

  /** One service entry of a Pebble layer or plan. */
  datatype ServiceSpec = ServiceSpec(override: string, summary: string, command: string, startup: string)

  datatype Layer = Layer(summary: string, description: string, services: map<string, ServiceSpec>)

  /** `_mysql_haproxy_pebble_layer`. */
  const HaproxyLayer := Layer(
    "mysql haproxy layer",
    "pebble config layer for mysql haproxy",
    map[ServiceName := ServiceSpec("replace", "mysql haproxy", "haproxy -f /configs", "enabled")])

  /** What the workload container reports when asked. */
  datatype Container = Container(canConnect: bool, planServices: map<string, ServiceSpec>, running: bool)

  /**
    The Pebble connection during one handler invocation: it holds for every call,
    or the first `calls` calls complete and the next one raises ConnectionError.
   */
  datatype Connection = Stable | DropsAfter(calls: nat)

  /** A call the charm makes on the container or on the event. */
  datatype Effect =
    | GetPlan
    | AddLayer(layerName: string, layer: Layer, combine: bool)
    | Push(path: string, content: string, mode: nat, user: string, makeDirs: bool)
    | Autostart
    | GetService(name: string)
    | Stop(service: string)
    | Start(service: string)
    | Defer

  datatype Status = Active(message: string) | Waiting(message: string)

  /**
    What a handler did: the calls that completed, in order; the status it set,
    if any; and whether a ConnectionError escaped it.
   */
  datatype Outcome = Outcome(log: seq<Effect>, status: Option<Status>, raised: bool)

  /** The calls that completed, whether one raised, and the connection left for later calls. */
  datatype Trace = Trace(done: seq<Effect>, raised: bool, rest: Connection)

  /** Makes `calls` in order over `conn`; a call that raises is not logged and stops the rest. */
  function Issue(calls: seq<Effect>, conn: Connection): (t: Trace)
    ensures t.done <= calls
    ensures t.raised <==> |t.done| < |calls|
    ensures t.raised <==> conn.DropsAfter? && conn.calls < |calls|
    ensures t.raised ==> |t.done| == conn.calls
    ensures !t.raised ==> t.rest == (if conn.Stable? then Stable else DropsAfter(conn.calls - |calls|))
  {
    match conn
    case Stable => Trace(calls, false, Stable)
    case DropsAfter(k) =>
      if k < |calls| then Trace(calls[..k], true, DropsAfter(0))
      else Trace(calls, false, DropsAfter(k - |calls|))
  }

  /** `_push_haproxy_config_to_workload`. */
  function PushConfig(cfg: HaproxyConfig.Config): Effect {
    Push(ConfigPath, HaproxyConfig.RenderConfig(cfg), ConfigFileMode, HaproxyUser, true)
  }

  /** The calls `_restart_haproxy` makes when nothing raises. */
  function RestartCalls(c: Container): seq<Effect> {
    [GetPlan]
    + if c.planServices == HaproxyLayer.services then []
      else [AddLayer(ServiceName, HaproxyLayer, true), GetService(ServiceName)]
           + (if c.running then [Stop(ServiceName)] else [])
           + [Start(ServiceName)]
  }

  /** `_restart_haproxy`: a ConnectionError is caught, and then no status is set. */
  function Restart(c: Container, conn: Connection): (o: Outcome)
    ensures !o.raised
    ensures |o.log| > 0 ==> o.log[0] == GetPlan
    ensures c.planServices == HaproxyLayer.services ==> o.log <= [GetPlan]
    ensures conn == Stable && c.planServices == HaproxyLayer.services ==> o.log == [GetPlan]
    ensures o.status.Some? ==> o.status == Some(Active(""))
    ensures conn == Stable ==> o.status.Some?
    ensures conn.DropsAfter? && conn.calls < |RestartCalls(c)| ==>
              o.log == RestartCalls(c)[..conn.calls] && o.status == None
    ensures !(conn.DropsAfter? && conn.calls < |RestartCalls(c)|) ==>
              o.log == RestartCalls(c) && o.status == Some(Active(""))
    ensures forall i :: 0 <= i < |o.log| ==> !o.log[i].Push? && !o.log[i].Defer?
    ensures conn == Stable && c.planServices != HaproxyLayer.services ==>
              o.log == [GetPlan, AddLayer(ServiceName, HaproxyLayer, true), GetService(ServiceName)]
                       + (if c.running then [Stop(ServiceName)] else [])
                       + [Start(ServiceName)]
  {
    var calls := RestartCalls(c);
    var t := Issue(calls, conn);
    assert forall i :: 0 <= i < |t.done| ==> t.done[i] == calls[i];
    Outcome(t.done, if t.raised then None else Some(Active("")), false)
  }

  /**
    `_on_config_changed`. When the container can connect it pushes the
    configuration exactly once, first, then restarts; it never defers then,
    and a push that raises escapes with nothing logged and no status set.
   */
  function ConfigChanged(c: Container, cfg: HaproxyConfig.Config, conn: Connection): (o: Outcome)
    ensures !c.canConnect ==> o == Outcome([Defer], Some(Waiting(WaitingMessage)), false)
    ensures o.raised <==> c.canConnect && conn == DropsAfter(0)
    ensures o.raised ==> o.log == [] && o.status == None
    ensures c.canConnect ==> forall i :: 0 <= i < |o.log| ==> !o.log[i].Defer?
    ensures c.canConnect && !o.raised ==>
              && o.status == Some(Active(""))
              && |o.log| > 0
              && o.log[0] == PushConfig(cfg)
              && (forall i :: 1 <= i < |o.log| ==> !o.log[i].Push?)
              && (|o.log| > 1 ==> o.log[1] == GetPlan)
    ensures c.canConnect && !o.raised ==>
              o.log == [PushConfig(cfg)]
                       + Restart(c, if conn.Stable? then Stable else DropsAfter(conn.calls - 1)).log
  {
    if !c.canConnect then
      Outcome([Defer], Some(Waiting(WaitingMessage)), false)
    else
      var push := Issue([PushConfig(cfg)], conn);
      if push.raised then Outcome(push.done, None, true)
      else
        var restart := Restart(c, push.rest);
        var log := push.done + restart.log;
        assert forall i :: 1 <= i < |log| ==> log[i] == restart.log[i - 1];
        Outcome(log, Some(Active("")), false)
  }

  /** `_on_mysql_haproxy_pebble_ready`; it does not ask whether the container can connect. */
  function PebbleReady(cfg: HaproxyConfig.Config, conn: Connection): (o: Outcome)
    ensures o.log <= [AddLayer(ServiceName, HaproxyLayer, true), PushConfig(cfg), Autostart]
    ensures o.raised <==> conn.DropsAfter? && conn.calls < 3
    ensures o.raised ==> |o.log| == conn.calls
    ensures !o.raised ==> |o.log| == 3
    ensures o.raised ==> o.status == None
    ensures !o.raised ==> o.status == Some(Active(StartedMessage))
  {
    var t := Issue([AddLayer(ServiceName, HaproxyLayer, true), PushConfig(cfg), Autostart], conn);
    Outcome(t.done, if t.raised then None else Some(Active(StartedMessage)), t.raised)
  }

  /** How one completed call changes the container, as far as the charm can observe. */
  function Step(c: Container, e: Effect): Container {
    match e
    case AddLayer(_, layer, _) => c.(planServices := c.planServices + layer.services)
    case Autostart =>
      if ServiceName in c.planServices && c.planServices[ServiceName].startup == "enabled"
      then c.(running := true) else c
    case Stop(_) => c.(running := false)
    case Start(_) => c.(running := true)
    case _ => c
  }

  function Apply(c: Container, log: seq<Effect>): Container
    decreases |log|
  {
    if |log| == 0 then c else Apply(Step(c, log[0]), log[1..])
  }

  lemma {:induction false} ApplyAppend(c: Container, a: seq<Effect>, b: seq<Effect>)
    ensures Apply(c, a + b) == Apply(Apply(c, a), b)
    decreases |a|
  {
    if |a| == 0 {
      assert a + b == b;
    } else {
      assert (a + b)[1..] == a[1..] + b;
      ApplyAppend(Step(c, a[0]), a[1..], b);
    }
  }

  /**
    A restart over a stable connection leaves the plan holding the charm's
    layer and the service running — unless the plan already matched, in which
    case a stopped service stays stopped.
   */
  lemma RestartReconciles(c: Container)
    ensures Apply(c, Restart(c, Stable).log).planServices
            == c.planServices + HaproxyLayer.services
    ensures Apply(c, Restart(c, Stable).log).running
            == (c.running || c.planServices != HaproxyLayer.services)
  {
    var log := Restart(c, Stable).log;
    if c.planServices != HaproxyLayer.services {
      var pre := [GetPlan, AddLayer(ServiceName, HaproxyLayer, true), GetService(ServiceName)];
      var mid := if c.running then [Stop(ServiceName)] else [];
      assert log == pre + mid + [Start(ServiceName)];
      ApplyAppend(c, pre + mid, [Start(ServiceName)]);
      ApplyAppend(c, pre, mid);
      var added := c.(planServices := c.planServices + HaproxyLayer.services);
      assert Apply(c, pre) == added by {
        assert pre[1..] == [AddLayer(ServiceName, HaproxyLayer, true), GetService(ServiceName)];
        assert pre[1..][1..] == [GetService(ServiceName)];
        assert Apply(added, [GetService(ServiceName)]) == added;
      }
      assert Apply(added, mid).planServices == added.planServices;
      assert Apply(Apply(added, mid), [Start(ServiceName)]).running;
    } else {
      assert c.planServices + HaproxyLayer.services == c.planServices;
    }
  }

  /**
    A second restart is a no-op exactly when the plan holds no service other
    than the charm's own: otherwise the plan never equals the layer and every
    restart stops and starts the service again.
   */
  lemma RestartIdempotent(c: Container)
    ensures Restart(Apply(c, Restart(c, Stable).log), Stable).log == [GetPlan]
            <==> c.planServices.Keys <= {ServiceName}
    ensures !(c.planServices.Keys <= {ServiceName}) ==>
              Restart(Apply(c, Restart(c, Stable).log), Stable).log
              == [GetPlan, AddLayer(ServiceName, HaproxyLayer, true), GetService(ServiceName),
                  Stop(ServiceName), Start(ServiceName)]
  {
    RestartReconciles(c);
    var plan := c.planServices + HaproxyLayer.services;
    if c.planServices.Keys <= {ServiceName} {
      assert plan == HaproxyLayer.services;
    } else {
      assert plan.Keys != HaproxyLayer.services.Keys;
    }
  }

  /**
    A ConnectionError inside the restart cuts its log short: what completed is
    the first part of the failure-free log, and nothing after the failing call.
   */
  lemma RestartFailureIsPrefix(c: Container, k: nat)
    ensures var full := Restart(c, Stable);
            var cut := Restart(c, DropsAfter(k));
            && (k < |full.log| ==> cut.log == full.log[..k] && cut.status == None)
            && (k >= |full.log| ==> cut == full)
  {
  }

  /**
    Every config push any handler makes writes the settings' rendering to
    `/configs/haproxy.cfg`, readable only by its owner `haproxy`, creating the
    directories on the way.
   */
  lemma EveryPushWritesConfig(c: Container, cfg: HaproxyConfig.Config, conn: Connection)
    ensures var expected := Push("/configs/haproxy.cfg", HaproxyConfig.RenderConfig(cfg), 0x180, "haproxy", true);
            && (forall e :: e in ConfigChanged(c, cfg, conn).log && e.Push? ==> e == expected)
            && (forall e :: e in PebbleReady(cfg, conn).log && e.Push? ==> e == expected)
            && (forall e :: e in Restart(c, conn).log ==> !e.Push?)
  {
  }

  /** Pebble-ready over a stable connection installs the layer and runs the service. */
  lemma PebbleReadyStartsService(c: Container, cfg: HaproxyConfig.Config)
    ensures Apply(c, PebbleReady(cfg, Stable).log).planServices
            == c.planServices + HaproxyLayer.services
    ensures Apply(c, PebbleReady(cfg, Stable).log).running
  {
    InstallThenAutostart(c, PushConfig(cfg));
  }

  lemma InstallThenAutostart(c: Container, push: Effect)
    requires push.Push?
    ensures Apply(c, [AddLayer(ServiceName, HaproxyLayer, true), push, Autostart])
            == c.(planServices := c.planServices + HaproxyLayer.services, running := true)
  {
    var added := c.(planServices := c.planServices + HaproxyLayer.services);
    ApplyAppend(c, [AddLayer(ServiceName, HaproxyLayer, true)], [push, Autostart]);
    ApplyAppend(added, [push], [Autostart]);
    assert Apply(added, [push]) == added;
    assert Apply(added, [Autostart]) == added.(running := true);
  }

  /** After config-changed, the restart runs over whatever is left of the connection. */
  lemma ConfigChangedRestarts(c: Container, cfg: HaproxyConfig.Config, conn: Connection)
    requires c.canConnect && conn != DropsAfter(0)
    ensures ConfigChanged(c, cfg, conn).log
            == [PushConfig(cfg)]
               + Restart(c, if conn.Stable? then Stable else DropsAfter(conn.calls - 1)).log
  {
  }
}
