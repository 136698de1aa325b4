/** The device configuration and its copies: the data module owns `current_cfg`, the application
    and the location module keep replicas that follow it over the event bus
    (asset_tracker_v2/src/modules/data_module.c, asset_tracker_v2/src/main.c,
    asset_tracker_v2/src/modules/location_module.c). */
module ConfigReplicas {
  const APP_QUEUE_ENTRY_COUNT: nat := 10

  datatype NoData = NoData(gnss: bool, neighborCell: bool, wifi: bool)

  datatype Cfg = Cfg(
    activeMode: bool,
    locationTimeout: int,
    activeWaitTimeout: int,
    movementResolution: int,
    movementTimeout: int,
    accelerometerActivityThreshold: real,
    accelerometerInactivityThreshold: real,
    accelerometerInactivityTimeout: real,
    noData: NoData)

  // ----- Taking over a configuration -----

  function Accepted(current: int, incoming: int): int {
    if incoming > 0 then incoming else current
  }

  /** `base` with the times of `c` and `n`: a new time has to be positive to be accepted. */
  function WithTimes(base: Cfg, c: Cfg, n: Cfg): Cfg {
    base.(locationTimeout := Accepted(c.locationTimeout, n.locationTimeout),
          activeWaitTimeout := Accepted(c.activeWaitTimeout, n.activeWaitTimeout),
          movementResolution := Accepted(c.movementResolution, n.movementResolution),
          movementTimeout := Accepted(c.movementTimeout, n.movementTimeout))
  }

  /** What the data module's configuration becomes when `n` arrives. */
  function Merge(c: Cfg, n: Cfg): Cfg {
    WithTimes(n, c, n)
  }

  predicate InRange(c: Cfg) {
    c.locationTimeout > 0 && c.activeWaitTimeout > 0 && c.movementResolution > 0 && c.movementTimeout > 0
  }

  /** A configuration in range is taken over as it is, a valid one stays valid, and receiving the
      same configuration again changes nothing. */
  lemma MergeIs(c: Cfg, n: Cfg)
    ensures Merge(c, n) == n <==>
              && (n.locationTimeout > 0 || n.locationTimeout == c.locationTimeout)
              && (n.activeWaitTimeout > 0 || n.activeWaitTimeout == c.activeWaitTimeout)
              && (n.movementResolution > 0 || n.movementResolution == c.movementResolution)
              && (n.movementTimeout > 0 || n.movementTimeout == c.movementTimeout)
    ensures InRange(c) || InRange(n) ==> InRange(Merge(c, n))
    ensures Merge(Merge(c, n), n) == Merge(c, n)
  {
  }

  // ----- Events -----

  datatype Event =
    | ConfigInit(cfg: Cfg)
    | ConfigReady(cfg: Cfg)
    | ShutdownRequest
    | Movement(restart: bool)   // `restart`: the application samples and restarts its timers
    | Other

  predicate IsConfig(e: Event) {
    e.ConfigInit? || e.ConfigReady?
  }

  class DataModule {
    var currentCfg: Cfg
    var bus: seq<Event>

    constructor (cfg: Cfg)
      ensures currentCfg == cfg && bus == []
    {
      currentCfg, bus := cfg, [];
    }

    method ConfigDistribute(ready: bool)
      modifies this`bus
      ensures bus == old(bus) + [if ready then ConfigReady(currentCfg) else ConfigInit(currentCfg)]
    {
      bus := bus + [if ready then ConfigReady(currentCfg) else ConfigInit(currentCfg)];
    }

    method TakeSwitches(n: Cfg) returns (changed: bool)
      modifies this`currentCfg
      ensures currentCfg == old(currentCfg).(activeMode := n.activeMode, noData := n.noData)
      ensures changed <==> currentCfg != old(currentCfg)
    {
      changed := false;
      if currentCfg.activeMode != n.activeMode {
        currentCfg := currentCfg.(activeMode := n.activeMode);
        changed := true;
      }
      if currentCfg.noData.gnss != n.noData.gnss {
        currentCfg := currentCfg.(noData := currentCfg.noData.(gnss := n.noData.gnss));
        changed := true;
      }
      if currentCfg.noData.neighborCell != n.noData.neighborCell {
        currentCfg := currentCfg.(noData := currentCfg.noData.(neighborCell := n.noData.neighborCell));
        changed := true;
      }
      if currentCfg.noData.wifi != n.noData.wifi {
        currentCfg := currentCfg.(noData := currentCfg.noData.(wifi := n.noData.wifi));
        changed := true;
      }
    }

    method TakeTimes(n: Cfg) returns (changed: bool)
      modifies this`currentCfg
      ensures currentCfg == WithTimes(old(currentCfg), old(currentCfg), n)
      ensures changed <==> currentCfg != old(currentCfg)
    {
      changed := false;
      if n.locationTimeout > 0 {
        if currentCfg.locationTimeout != n.locationTimeout {
          currentCfg := currentCfg.(locationTimeout := n.locationTimeout);
          changed := true;
        }
      }
      if n.activeWaitTimeout > 0 {
        if currentCfg.activeWaitTimeout != n.activeWaitTimeout {
          currentCfg := currentCfg.(activeWaitTimeout := n.activeWaitTimeout);
          changed := true;
        }
      }
      if n.movementResolution > 0 {
        if currentCfg.movementResolution != n.movementResolution {
          currentCfg := currentCfg.(movementResolution := n.movementResolution);
          changed := true;
        }
      }
      if n.movementTimeout > 0 {
        if currentCfg.movementTimeout != n.movementTimeout {
          currentCfg := currentCfg.(movementTimeout := n.movementTimeout);
          changed := true;
        }
      }
    }

    method TakeAccelerometer(n: Cfg) returns (changed: bool)
      modifies this`currentCfg
      ensures currentCfg == old(currentCfg).(
                accelerometerActivityThreshold := n.accelerometerActivityThreshold,
                accelerometerInactivityThreshold := n.accelerometerInactivityThreshold,
                accelerometerInactivityTimeout := n.accelerometerInactivityTimeout)
      ensures changed <==> currentCfg != old(currentCfg)
    {
      changed := false;
      if currentCfg.accelerometerActivityThreshold != n.accelerometerActivityThreshold {
        currentCfg := currentCfg.(accelerometerActivityThreshold := n.accelerometerActivityThreshold);
        changed := true;
      }
      if currentCfg.accelerometerInactivityThreshold != n.accelerometerInactivityThreshold {
        currentCfg := currentCfg.(accelerometerInactivityThreshold := n.accelerometerInactivityThreshold);
        changed := true;
      }
      if currentCfg.accelerometerInactivityTimeout != n.accelerometerInactivityTimeout {
        currentCfg := currentCfg.(accelerometerInactivityTimeout := n.accelerometerInactivityTimeout);
        changed := true;
      }
    }

    /** new_config_handle, its guards grouped by kind of field: the new configuration is
        distributed exactly when some field has changed. */
    method NewConfigHandle(newConfig: Cfg)
      modifies this
      ensures currentCfg == Merge(old(currentCfg), newConfig)
      ensures bus == old(bus) + if currentCfg != old(currentCfg) then [ConfigReady(currentCfg)] else []
    {
      var switched := TakeSwitches(newConfig);
      var retimed := TakeTimes(newConfig);
      var retuned := TakeAccelerometer(newConfig);
      if switched || retimed || retuned {
        ConfigDistribute(true);
      }
    }
  }

  // ----- The application -----

  datatype State = STATE_INIT | STATE_RUNNING | STATE_SHUTDOWN

  datatype SubState = SUB_STATE_ACTIVE_MODE | SUB_STATE_PASSIVE_MODE

  datatype Timer = Stopped | Started(duration: int, period: int)

  datatype Timers = Timers(dataSample: Timer, movementResolution: Timer, movementTimeout: Timer)

  datatype App = App(state: State, subState: SubState, cfg: Cfg, timers: Timers)

  function PassiveTimers(c: Cfg): Timers {
    Timers(Started(c.movementResolution, c.movementResolution),
           Started(c.movementResolution, 0),
           Started(c.movementTimeout, c.movementTimeout))
  }

  function ActiveTimers(c: Cfg): Timers {
    Timers(Started(c.activeWaitTimeout, c.activeWaitTimeout), Stopped, Stopped)
  }

  const NO_TIMERS := Timers(Stopped, Stopped, Stopped)

  /** The timers and sub-state a configuration asks for. */
  function Settings(c: Cfg): (SubState, Timers) {
    if c.activeMode then (SUB_STATE_ACTIVE_MODE, ActiveTimers(c)) else (SUB_STATE_PASSIVE_MODE, PassiveTimers(c))
  }

  function Adopt(a: App, c: Cfg): App {
    a.(cfg := c, subState := Settings(c).0, timers := Settings(c).1)
  }

  function Handled(a: App, e: Event): App {
    var b :=
      match a.state
      case STATE_INIT => if e.ConfigInit? then Adopt(a, e.cfg).(state := STATE_RUNNING) else a
      case STATE_RUNNING =>
        if e.ConfigReady? then Adopt(a, e.cfg)
        else if e.Movement? && e.restart && a.subState.SUB_STATE_PASSIVE_MODE?
        then a.(timers := PassiveTimers(a.cfg)) else a
      case STATE_SHUTDOWN => a;
    if e.ShutdownRequest? then b.(state := STATE_SHUTDOWN, timers := NO_TIMERS) else b
  }

  class Application {
    var state: State
    var subState: SubState
    var appCfg: Cfg
    var timers: Timers

    function View(): App
      reads this
    {
      App(state, subState, appCfg, timers)
    }

    constructor (cfg: Cfg)
      ensures View() == App(STATE_INIT, SUB_STATE_ACTIVE_MODE, cfg, NO_TIMERS)
    {
      state, subState, appCfg, timers := STATE_INIT, SUB_STATE_ACTIVE_MODE, cfg, NO_TIMERS;
    }

    method PassiveModeTimersStartAll()
      modifies this`timers
      ensures timers == PassiveTimers(appCfg)
    {
      timers := Timers(Started(appCfg.movementResolution, appCfg.movementResolution),
                       Started(appCfg.movementResolution, 0),
                       Started(appCfg.movementTimeout, appCfg.movementTimeout));
    }

    method ActiveModeTimersStartAll()
      modifies this`timers
      ensures timers == ActiveTimers(appCfg)
    {
      timers := timers.(dataSample := Started(appCfg.activeWaitTimeout, appCfg.activeWaitTimeout));
      timers := timers.(movementResolution := Stopped, movementTimeout := Stopped);
    }

    method OnStateInit(e: Event)
      requires state == STATE_INIT
      modifies this
      ensures View() == if e.ConfigInit? then Adopt(old(View()), e.cfg).(state := STATE_RUNNING) else old(View())
    {
      if e.ConfigInit? {
        appCfg := e.cfg;
        if appCfg.activeMode {
          ActiveModeTimersStartAll();
        } else {
          PassiveModeTimersStartAll();
        }
        state := STATE_RUNNING;
        subState := if appCfg.activeMode then SUB_STATE_ACTIVE_MODE else SUB_STATE_PASSIVE_MODE;
      }
    }

    method OnSubStatePassive(e: Event)
      requires subState == SUB_STATE_PASSIVE_MODE
      modifies this
      ensures View() == if e.ConfigReady? then Adopt(old(View()), e.cfg)
                        else if e.Movement? && e.restart then old(View()).(timers := PassiveTimers(appCfg))
                        else old(View())
    {
      if e.ConfigReady? {
        appCfg := e.cfg;
        if appCfg.activeMode {
          ActiveModeTimersStartAll();
          subState := SUB_STATE_ACTIVE_MODE;
          return;
        }
        PassiveModeTimersStartAll();
      }
      if e.Movement? {
        if e.restart {
          PassiveModeTimersStartAll();
        }
      }
    }

    method OnSubStateActive(e: Event)
      requires subState == SUB_STATE_ACTIVE_MODE
      modifies this
      ensures View() == if e.ConfigReady? then Adopt(old(View()), e.cfg) else old(View())
    {
      if e.ConfigReady? {
        appCfg := e.cfg;
        if !appCfg.activeMode {
          PassiveModeTimersStartAll();
          subState := SUB_STATE_PASSIVE_MODE;
          return;
        }
        ActiveModeTimersStartAll();
      }
    }

    method OnAllEvents(e: Event)
      modifies this
      ensures View() == if e.ShutdownRequest? then old(View()).(state := STATE_SHUTDOWN, timers := NO_TIMERS)
                        else old(View())
    {
      if e.ShutdownRequest? {
        timers := Timers(Stopped, Stopped, Stopped);
        state := STATE_SHUTDOWN;
      }
    }

    /** One turn of the loop in main. */
    method Handle(e: Event)
      modifies this
      ensures View() == Handled(old(View()), e)
    {
      match state {
        case STATE_INIT =>
          OnStateInit(e);
        case STATE_RUNNING =>
          match subState {
            case SUB_STATE_ACTIVE_MODE =>
              OnSubStateActive(e);
            case SUB_STATE_PASSIVE_MODE =>
              OnSubStatePassive(e);
          }
        case STATE_SHUTDOWN =>
      }
      OnAllEvents(e);
    }
  }

  // ----- The message queue of a module -----

  function Enqueued(queue: seq<Event>, e: Event): seq<Event> {
    if |queue| < APP_QUEUE_ENTRY_COUNT then queue + [e] else []
  }

  /** Ten messages fit; one more is lost together with all of them. */
  lemma TenMessagesFit(queue: seq<Event>, e: Event)
    ensures Enqueued(queue, e) == if |queue| < 10 then queue + [e] else []
    ensures |queue| <= 10 ==> |Enqueued(queue, e)| <= 10
  {
  }

  class MessageQueue {
    var queue: seq<Event>

    constructor ()
      ensures queue == []
    {
      queue := [];
    }

    /** module_enqueue_msg: a full queue is purged, and the message is lost with it. */
    method Enqueue(e: Event) returns (err: bool)
      modifies this
      ensures queue == Enqueued(old(queue), e)
      ensures err == (|old(queue)| >= APP_QUEUE_ENTRY_COUNT)
    {
      err := |queue| >= APP_QUEUE_ENTRY_COUNT;
      if err {
        queue := [];
      } else {
        queue := queue + [e];
      }
    }
  }

  // ----- The system -----

  /** `started`: CONFIG_INIT has been posted; `distributed`: any configuration has. */
  datatype System = System(
    cur: Cfg,
    bus: seq<Event>,
    appQueue: seq<Event>,
    app: App,
    location: Cfg,
    started: bool,
    distributed: bool)

  datatype Op =
    | AppStart               // the data module handles APP_EVT_START
    | ConfigReceived(n: Cfg) // the data module handles CLOUD_EVT_CONFIG_RECEIVED
    | Post(e: Event)         // any module posts any other event
    | Dispatch               // the event manager delivers the oldest event
    | AppTakes               // the application handles its oldest message

  predicate Enabled(s: System, op: Op) {
    match op
    case Post(e) => !IsConfig(e)
    case Dispatch => s.bus != []
    case AppTakes => s.appQueue != []
    case _ => true
  }

  function Apply(s: System, op: Op): System
    requires Enabled(s, op)
  {
    match op
    case AppStart => s.(bus := s.bus + [ConfigInit(s.cur)], started := true, distributed := true)
    case ConfigReceived(n) =>
      var c := Merge(s.cur, n);
      if c == s.cur then s else s.(cur := c, bus := s.bus + [ConfigReady(c)], distributed := true)
    case Post(e) => s.(bus := s.bus + [e])
    case Dispatch =>
      var e := s.bus[0];
      s.(bus := s.bus[1..] + if Overflows(s, op) then [Other] else [],
         appQueue := Enqueued(s.appQueue, e),
         location := if IsConfig(e) then e.cfg else s.location)
    case AppTakes => s.(appQueue := s.appQueue[1..], app := Handled(s.app, s.appQueue[0]))
  }

  predicate Overflows(s: System, op: Op) {
    op.Dispatch? && |s.appQueue| >= APP_QUEUE_ENTRY_COUNT
  }

  // ----- The invariant -----

  predicate NoReady(es: seq<Event>) {
    forall i :: 0 <= i < |es| ==> !es[i].ConfigReady?
  }

  predicate NoInit(es: seq<Event>) {
    forall i :: 0 <= i < |es| ==> !es[i].ConfigInit?
  }

  predicate NoConfig(es: seq<Event>) {
    NoReady(es) && NoInit(es)
  }

  /** Every configuration event with no later CONFIG_READY behind it carries `c`. */
  predicate Fresh(es: seq<Event>, c: Cfg)
    decreases |es|
  {
    es == [] || (Fresh(es[1..], c) && (IsConfig(es[0]) && NoReady(es[1..]) ==> es[0].cfg == c))
  }

  /** The sub-state and timers are those the application's copy asks for. */
  predicate Settled(a: App) {
    && (a.state == STATE_RUNNING ==> (a.subState, a.timers) == Settings(a.cfg))
    && (a.state != STATE_RUNNING ==> a.timers == NO_TIMERS)
  }

  predicate AppFollows(s: System) {
    var pending := s.appQueue + s.bus;
    && (s.app.state == STATE_RUNNING && NoReady(pending) ==> s.app.cfg == s.cur)
    && (s.app.state == STATE_INIT && s.started ==> !NoInit(pending))
  }

  predicate Inv(s: System) {
    && Fresh(s.appQueue + s.bus, s.cur)
    && Fresh(s.bus, s.cur)
    && AppFollows(s)
    && (s.distributed && NoConfig(s.bus) ==> s.location == s.cur)
    && (s.started ==> s.distributed)
    && Settled(s.app)
  }

  lemma {:induction false} FreshAppend(es: seq<Event>, c: Cfg, e: Event, d: Cfg)
    requires Fresh(es, c)
    requires if e.ConfigReady? then e.cfg == d else c == d && (e.ConfigInit? ==> e.cfg == c)
    ensures Fresh(es + [e], d)
    decreases |es|
  {
    if es == [] {
      assert (es + [e])[1..] == [];
    } else {
      FreshAppend(es[1..], c, e, d);
      assert (es + [e])[1..] == es[1..] + [e];
      assert (es[1..] + [e])[|es| - 1] == e;
      NoReadyAppend(es[1..], e);
    }
  }

  lemma NoReadyAppend(es: seq<Event>, e: Event)
    ensures NoReady(es + [e]) <==> NoReady(es) && !e.ConfigReady?
    ensures NoInit(es + [e]) <==> NoInit(es) && !e.ConfigInit?
  {
    assert (es + [e])[|es|] == e;
    assert forall i :: 0 <= i < |es| ==> (es + [e])[i] == es[i];
  }

  lemma NoReadyHead(e: Event, es: seq<Event>)
    ensures NoReady([e] + es) <==> NoReady(es) && !e.ConfigReady?
    ensures NoInit([e] + es) <==> NoInit(es) && !e.ConfigInit?
  {
    assert ([e] + es)[0] == e;
    assert forall i :: 0 <= i < |es| ==> ([e] + es)[i + 1] == es[i];
  }

  /** Posting an event keeps the invariant if a CONFIG_READY carries the new configuration and
      nothing else changes it. */
  lemma PostKeeps(s: System, e: Event, t: System)
    requires Inv(s)
    requires t == s.(cur := t.cur, bus := s.bus + [e], started := t.started, distributed := t.distributed)
    requires if e.ConfigReady? then e.cfg == t.cur else s.cur == t.cur && (e.ConfigInit? ==> e.cfg == t.cur)
    requires t.started == (s.started || e.ConfigInit?) && t.distributed == (s.distributed || IsConfig(e))
    ensures Inv(t)
  {
    assert t.appQueue + t.bus == (s.appQueue + s.bus) + [e];
    hide Fresh, NoReady, NoInit, Settled;
    FreshAppend(s.bus, s.cur, e, t.cur);
    FreshAppend(s.appQueue + s.bus, s.cur, e, t.cur);
    NoReadyAppend(s.bus, e);
    NoReadyAppend(s.appQueue + s.bus, e);
  }

  lemma DispatchKeeps(s: System)
    requires Inv(s) && s.bus != [] && |s.appQueue| < APP_QUEUE_ENTRY_COUNT
    ensures Inv(Apply(s, Dispatch))
  {
    var t := Apply(s, Dispatch);
    assert t.bus == s.bus[1..];
    assert t.appQueue + t.bus == s.appQueue + s.bus;
    assert [s.bus[0]] + s.bus[1..] == s.bus;
    NoReadyHead(s.bus[0], s.bus[1..]);
    hide NoReady, NoInit, Settled;
  }

  lemma TakeKeeps(s: System)
    requires Inv(s) && s.appQueue != []
    ensures Inv(Apply(s, AppTakes))
  {
    var t := Apply(s, AppTakes);
    var e := s.appQueue[0];
    var pending := s.appQueue + s.bus;
    assert pending[1..] == t.appQueue + t.bus && pending[0] == e;
    assert [e] + pending[1..] == pending;
    NoReadyHead(e, pending[1..]);
    hide NoReady, NoInit;
  }

  /** Every step keeps the invariant as long as the application's queue does not overflow. */
  lemma StepKeeps(s: System, op: Op)
    requires Inv(s) && Enabled(s, op) && !Overflows(s, op)
    ensures Inv(Apply(s, op))
  {
    match op {
      case AppStart => PostKeeps(s, ConfigInit(s.cur), Apply(s, op));
      case ConfigReceived(n) =>
        if Merge(s.cur, n) != s.cur {
          PostKeeps(s, ConfigReady(Merge(s.cur, n)), Apply(s, op));
        }
      case Post(e) => PostKeeps(s, e, Apply(s, op));
      case Dispatch => DispatchKeeps(s);
      case AppTakes => TakeKeeps(s);
    }
  }

  // ----- What an overflow costs -----

  /** After an overflow the replicas still follow exactly when the events left on the bus bring
      the application up to date, or it is up to date already. */
  predicate Recovers(s: System) {
    var left := s.bus[if s.bus == [] then 0 else 1..];
    match s.app.state
    case STATE_INIT => s.started ==> !NoInit(left)
    case STATE_RUNNING => s.app.cfg == s.cur || !NoReady(left)
    case STATE_SHUTDOWN => true
  }

  lemma OverflowKeeps(s: System)
    requires Inv(s) && Enabled(s, Dispatch) && Overflows(s, Dispatch)
    ensures Inv(Apply(s, Dispatch)) <==> Recovers(s)
  {
    var t, e, left := Apply(s, Dispatch), s.bus[0], s.bus[1..];
    assert t.bus == left + [Other] && t.appQueue + t.bus == t.bus;
    assert [e] + left == s.bus;
    NoReadyHead(e, left);
    NoReadyAppend(left, Other);
    FreshAppend(left, s.cur, Other, s.cur);
    hide NoReady, NoInit, Settled;
  }

  lemma NoInitConcat(a: seq<Event>, b: seq<Event>)
    ensures NoInit(a + b) <==> NoInit(a) && NoInit(b)
  {
    assert forall i :: 0 <= i < |a| ==> (a + b)[i] == a[i];
    assert forall i :: 0 <= i < |b| ==> (a + b)[|a| + i] == b[i];
  }

  lemma LostInitStep(s: System, op: Op)
    requires s.app.state != STATE_RUNNING && NoInit(s.appQueue + s.bus)
    requires Enabled(s, op) && op != AppStart
    ensures var t := Apply(s, op);
            NoInit(t.appQueue + t.bus) && t.app.state != STATE_RUNNING && t.app.cfg == s.app.cfg
  {
    var t := Apply(s, op);
    NoInitConcat(s.appQueue, s.bus);
    NoInitConcat(t.appQueue, t.bus);
    if op.Dispatch? {
      NoInitConcat(s.bus[1..], [Other]);
    }
  }

  // ----- Runs -----

  predicate CanRun(s: System, ops: seq<Op>)
    decreases |ops|
  {
    ops == [] || (Enabled(s, ops[0]) && CanRun(Apply(s, ops[0]), ops[1..]))
  }

  function Run(s: System, ops: seq<Op>): System
    requires CanRun(s, ops)
    decreases |ops|
  {
    if ops == [] then s else Run(Apply(s, ops[0]), ops[1..])
  }

  /** An application whose CONFIG_INIT has been lost never runs, whatever happens, until the start
      event is handled again. */
  lemma {:induction false} LostInitStays(s: System, ops: seq<Op>)
    requires s.app.state != STATE_RUNNING && NoInit(s.appQueue + s.bus)
    requires CanRun(s, ops) && AppStart !in ops
    ensures var t := Run(s, ops);
            NoInit(t.appQueue + t.bus) && t.app.state != STATE_RUNNING && t.app.cfg == s.app.cfg
    decreases |ops|
  {
    if ops != [] {
      LostInitStep(s, ops[0]);
      hide Apply, Enabled, NoInit;
      LostInitStays(Apply(s, ops[0]), ops[1..]);
    }
  }

  /** Every overflow in the run is one the system recovers from. */
  predicate SafeRun(s: System, ops: seq<Op>)
    requires CanRun(s, ops)
    decreases |ops|
  {
    ops == [] || ((Overflows(s, ops[0]) ==> Recovers(s)) && SafeRun(Apply(s, ops[0]), ops[1..]))
  }

  lemma {:induction false} RunKeeps(s: System, ops: seq<Op>)
    requires Inv(s) && CanRun(s, ops) && SafeRun(s, ops)
    ensures Inv(Run(s, ops))
    decreases |ops|
  {
    if ops != [] {
      if Overflows(s, ops[0]) {
        OverflowKeeps(s);
      } else {
        StepKeeps(s, ops[0]);
      }
      hide Inv, Apply, Recovers, Overflows;
      RunKeeps(Apply(s, ops[0]), ops[1..]);
    }
  }

  function Booted(cur: Cfg, app: Cfg, location: Cfg): System {
    System(cur, [], [], App(STATE_INIT, SUB_STATE_ACTIVE_MODE, app, NO_TIMERS), location, false, false)
  }

  /** The configuration of the newest CONFIG_READY: what a running application will end up with. */
  function Newest(es: seq<Event>, otherwise: Cfg): Cfg
    decreases |es|
  {
    if es == [] then otherwise else Newest(es[1..], if es[0].ConfigReady? then es[0].cfg else otherwise)
  }

  /** The configuration of the newest event of either kind: what the location module will end up with. */
  function NewestConfig(es: seq<Event>, otherwise: Cfg): Cfg
    decreases |es|
  {
    if es == [] then otherwise else NewestConfig(es[1..], if IsConfig(es[0]) then es[0].cfg else otherwise)
  }

  lemma {:induction false} NewestIsCurrent(es: seq<Event>, otherwise: Cfg, c: Cfg)
    requires Fresh(es, c)
    ensures Newest(es, otherwise) == if NoReady(es) then otherwise else c
    decreases |es|
  {
    if es != [] {
      assert [es[0]] + es[1..] == es;
      NoReadyHead(es[0], es[1..]);
      hide NoReady;
      NewestIsCurrent(es[1..], if es[0].ConfigReady? then es[0].cfg else otherwise, c);
    }
  }

  lemma {:induction false} NewestConfigIsCurrent(es: seq<Event>, otherwise: Cfg, c: Cfg)
    requires Fresh(es, c)
    ensures NewestConfig(es, otherwise) == if NoConfig(es) then otherwise else c
    decreases |es|
  {
    if es != [] {
      assert [es[0]] + es[1..] == es;
      NoReadyHead(es[0], es[1..]);
      hide NoReady, NoInit;
      NewestConfigIsCurrent(es[1..], if IsConfig(es[0]) then es[0].cfg else otherwise, c);
    }
  }

  /** A running application's mode and timers are those of its configuration: in active mode a sample
      is due every waiting time; in passive mode the movement resolution times the next sample once
      and the following ones, and the movement timeout repeats.  Otherwise nothing is timed. */
  predicate TimedBy(a: App, c: Cfg) {
    && (a.state == STATE_RUNNING && c.activeMode ==>
          && a.subState == SUB_STATE_ACTIVE_MODE
          && a.timers == Timers(Started(c.activeWaitTimeout, c.activeWaitTimeout), Stopped, Stopped))
    && (a.state == STATE_RUNNING && !c.activeMode ==>
          && a.subState == SUB_STATE_PASSIVE_MODE
          && a.timers == Timers(Started(c.movementResolution, c.movementResolution), Started(c.movementResolution, 0),
                                Started(c.movementTimeout, c.movementTimeout)))
    && (a.state != STATE_RUNNING ==> a.timers == Timers(Stopped, Stopped, Stopped))
  }

  lemma SettledIsTimed(a: App)
    requires Settled(a)
    ensures TimedBy(a, a.cfg)
  {
  }

  /** What every event does to the application in every state; movement only ever restarts timers. */
  lemma EventsHandled(a: App, e: Event)
    ensures var b := Handled(a, e);
            && b.state == (if e.ShutdownRequest? then STATE_SHUTDOWN
                           else if a.state == STATE_INIT && e.ConfigInit? then STATE_RUNNING else a.state)
            && b.cfg == (if (a.state == STATE_INIT && e.ConfigInit?) || (a.state == STATE_RUNNING && e.ConfigReady?)
                         then e.cfg else a.cfg)
            && (b.cfg == a.cfg && Settled(a) && e != ShutdownRequest && a.state != STATE_INIT ==> b == a)
            && (Settled(a) ==> TimedBy(b, b.cfg))
  {
  }

  /** The replicas agree: after any such run from power-up, a running application holds the
      current configuration unless a CONFIG_READY is still on its way to it, and then the newest
      one carries it; the same for the location module and events of either kind once a
      configuration has been distributed.  The application's sub-state and timers are those of its
      copy. */
  lemma ReplicasAgree(cur: Cfg, app: Cfg, location: Cfg, ops: seq<Op>)
    requires CanRun(Booted(cur, app, location), ops) && SafeRun(Booted(cur, app, location), ops)
    ensures var t := Run(Booted(cur, app, location), ops);
            var pending := t.appQueue + t.bus;
            && (t.app.state == STATE_RUNNING ==>
                  && Newest(pending, t.app.cfg) == t.cur
                  && (NoReady(pending) ==> t.app.cfg == t.cur)
                  && (NoReady(pending) ==> TimedBy(t.app, t.cur)))
            && TimedBy(t.app, t.app.cfg)
            && (t.app.state == STATE_INIT && t.started ==> !NoInit(pending))
            && (t.distributed ==>
                  && NewestConfig(t.bus, t.location) == t.cur
                  && (NoConfig(t.bus) ==> t.location == t.cur))
            && (t.started ==> t.distributed)
  {
    RunKeeps(Booted(cur, app, location), ops);
    var t := Run(Booted(cur, app, location), ops);
    NewestIsCurrent(t.appQueue + t.bus, t.app.cfg, t.cur);
    NewestConfigIsCurrent(t.bus, t.location, t.cur);
    SettledIsTimed(t.app);
    hide TimedBy, Settled;
  }

  /** Once everything posted has been handled, all three configurations are the same, and the
      application samples as the data module's asks for. */
  lemma QuietReplicasAgree(cur: Cfg, app: Cfg, location: Cfg, ops: seq<Op>)
    requires CanRun(Booted(cur, app, location), ops) && SafeRun(Booted(cur, app, location), ops)
    requires var t := Run(Booted(cur, app, location), ops);
             t.bus == [] && t.appQueue == [] && t.started && t.app.state != STATE_SHUTDOWN
    ensures var t := Run(Booted(cur, app, location), ops);
            t.app.state == STATE_RUNNING && t.app.cfg == t.cur && t.location == t.cur && TimedBy(t.app, t.cur)
  {
    ReplicasAgree(cur, app, location, ops);
  }

  /** A copy changes only when a configuration event is taken from its queue, and then to what that
      event carries. */
  lemma OnlyEventsChangeCopies(s: System, op: Op)
    requires Enabled(s, op)
    ensures var t := Apply(s, op);
            && t.location == (if op == Dispatch && IsConfig(s.bus[0]) then s.bus[0].cfg else s.location)
            && (t.app.cfg != s.app.cfg ==> op == AppTakes && IsConfig(s.appQueue[0]) && t.app.cfg == s.appQueue[0].cfg)
  {
  }

  /** Start event, distribution and take-over, in this order. */
  function Starting(): seq<Op> {
    [AppStart, Dispatch, AppTakes]
  }

  function Reconfiguring(n: Cfg): seq<Op> {
    [ConfigReceived(n), Dispatch, AppTakes]
  }

  lemma RunOne(s: System, op: Op, ops: seq<Op>)
    requires Enabled(s, op) && CanRun(Apply(s, op), ops)
    ensures CanRun(s, [op] + ops) && Run(s, [op] + ops) == Run(Apply(s, op), ops)
  {
    hide Apply, Enabled;
    assert ([op] + ops)[1..] == ops;
  }

  lemma RunThree(s: System, a: Op, b: Op, c: Op)
    requires Enabled(s, a) && Enabled(Apply(s, a), b) && Enabled(Apply(Apply(s, a), b), c)
    ensures CanRun(s, [a, b, c]) && Run(s, [a, b, c]) == Apply(Apply(Apply(s, a), b), c)
  {
    hide Apply, Enabled;
    var s1 := Apply(s, a);
    var s2 := Apply(s1, b);
    RunOne(s2, c, []);
    RunOne(s1, b, [c]);
    RunOne(s, a, [b, c]);
    assert [a] + [b, c] == [a, b, c] && [b] + [c] == [b, c] && [c] + [] == [c];
  }

  lemma Reconfigured(s: System, n: Cfg)
    requires s.bus == [] && s.appQueue == [] && s.app.state == STATE_RUNNING && InRange(n) && n != s.cur
    ensures CanRun(s, Reconfiguring(n))
    ensures var t := Run(s, Reconfiguring(n));
            t.bus == [] && t.appQueue == [] && t.app.state == STATE_RUNNING && t.app.cfg == t.location == t.cur == n
  {
    MergeIs(s.cur, n);
    var s1 := Apply(s, ConfigReceived(n));
    assert s1.bus == [ConfigReady(n)];
    var s2 := Apply(s1, Dispatch);
    assert s2.bus == [] && s2.appQueue == [ConfigReady(n)];
    RunThree(s, ConfigReceived(n), Dispatch, AppTakes);
    hide Run, CanRun;
  }

  /** From power-up three steps bring the application to run with the data module's configuration, and
      three more bring every other configuration in range to all three modules. */
  lemma ConfigurationArrives(cur: Cfg, app: Cfg, location: Cfg, n: Cfg)
    requires InRange(n) && n != cur
    ensures CanRun(Booted(cur, app, location), Starting())
    ensures var s := Run(Booted(cur, app, location), Starting());
            && s.bus == [] && s.appQueue == [] && s.app.state == STATE_RUNNING && s.app.cfg == s.location == s.cur == cur
            && CanRun(s, Reconfiguring(n))
            && var t := Run(s, Reconfiguring(n));
               t.bus == [] && t.appQueue == [] && t.app.state == STATE_RUNNING && t.app.cfg == t.location == t.cur == n
  {
    var boot := Booted(cur, app, location);
    var s1 := Apply(boot, AppStart);
    assert s1.bus == [ConfigInit(cur)];
    var s2 := Apply(s1, Dispatch);
    assert s2.bus == [] && s2.appQueue == [ConfigInit(cur)];
    RunThree(boot, AppStart, Dispatch, AppTakes);
    hide Run, CanRun, Reconfiguring;
    Reconfigured(Run(boot, Starting()), n);
  }
}
