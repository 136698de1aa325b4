/** Connecting to the cloud with a growing delay (asset_tracker_v2/src/modules/cloud_module.c). */
module CloudBackoff {
  const BACKOFF_DELAY: seq<nat> := [
    32, 64, 128, 256, 512, 2048, 4096, 8192, 16384, 32768, 65536, 131072, 262144, 524288, 1048576]

  const RETRIES_BOUND: nat := 14   // CONFIG_CLOUD_CONNECT_RETRIES has to be less

  /** Each delay is longer than the one before; it is twice as long except after the fifth. */
  lemma BackoffGrows(i: nat, j: nat)
    requires i < j < |BACKOFF_DELAY|
    ensures BACKOFF_DELAY[i] < BACKOFF_DELAY[j]
    ensures j == i + 1 ==> (BACKOFF_DELAY[j] == 2 * BACKOFF_DELAY[i] <==> i != 4)
  {
  }

  datatype State = LTE_INIT | LTE_DISCONNECTED | LTE_CONNECTED | SHUTDOWN

  datatype SubState = CLOUD_DISCONNECTED | CLOUD_CONNECTED

  datatype Timer = Idle | Running(seconds: nat)

  datatype Cloud = Cloud(state: State, subState: SubState, retries: nat, timer: Timer)

  /** What a step does besides changing the module's variables. */
  datatype Action =
    | Attempt(delay: nat)   // cloud_wrap_connect, and the delay before the next attempt
    | Unreachable           // CLOUD_EVT_ERROR with -ENETUNREACH
    | Reset                 // connect_retries is zeroed

  datatype Event =
    | ModemInitialized | LteConnected | LteDisconnected | FotaPending | FotaStopped
    | CloudConnected | CloudDisconnected | ConnectionTimeout | ShutdownRequest
    | UserAssociationRequest | UserAssociated | TimerFires | Other

  datatype Step = Step(cloud: Cloud, actions: seq<Action>)

  function Connected(c: Cloud, limit: nat): Step
    requires c.retries < |BACKOFF_DELAY|
  {
    if c.retries > limit then Step(c, [Unreachable])
    else
      var delay := BACKOFF_DELAY[c.retries];
      Step(c.(retries := c.retries + 1, timer := Running(delay)), [Attempt(delay)])
  }

  function Disconnected(c: Cloud): Step {
    Step(c.(retries := 0, timer := Idle), [Reset])
  }

  function InSubState(c: Cloud, e: Event, limit: nat): Step
    requires c.retries < |BACKOFF_DELAY|
  {
    match c.subState
    case CLOUD_CONNECTED =>
      if e.CloudDisconnected? then Step(c.(subState := CLOUD_DISCONNECTED, timer := Running(1)), []) else Step(c, [])
    case CLOUD_DISCONNECTED =>
      if e.CloudConnected? then Step(c.(subState := CLOUD_CONNECTED, retries := 0, timer := Idle), [Reset])
      else if e.ConnectionTimeout? then Connected(c, limit)
      else Step(c, [])
  }

  function InLteConnected(c: Cloud, e: Event, limit: nat): Step
    requires c.retries < |BACKOFF_DELAY|
  {
    match e
    case LteDisconnected => Disconnected(c.(subState := CLOUD_DISCONNECTED, state := LTE_DISCONNECTED))
    case FotaPending => Disconnected(c.(subState := CLOUD_DISCONNECTED))
    case FotaStopped => Connected(c, limit)
    case _ => InSubState(c, e, limit)
  }

  function InState(c: Cloud, e: Event, limit: nat): Step
    requires c.retries < |BACKOFF_DELAY|
  {
    match c.state
    case LTE_INIT => Step(if e.ModemInitialized? then c.(state := LTE_DISCONNECTED) else c, [])
    case LTE_CONNECTED => InLteConnected(c, e, limit)
    case LTE_DISCONNECTED => if e.LteConnected? then Connected(c.(state := LTE_CONNECTED), limit) else Step(c, [])
    case SHUTDOWN => Step(c, [])
  }

  /** One event: a message of the module's queue, a call from the cloud library, or the timer. */
  function Handled(c: Cloud, e: Event, limit: nat): Step
    requires c.retries < |BACKOFF_DELAY|
  {
    match e
    case UserAssociationRequest => Step(c.(retries := 0, timer := Idle), [Reset])
    case UserAssociated => Step(if c.timer.Idle? then c.(timer := Running(5)) else c, [])
    case TimerFires => Step(c.(timer := Idle), [])
    case ShutdownRequest => Step(c.(state := SHUTDOWN), [])
    case _ => InState(c, e, limit)
  }

  class CloudModule {
    const limit: nat
    var state: State
    var subState: SubState
    var connectRetries: nat
    var connectCheckWork: Timer
    var actions: seq<Action>

    function View(): Cloud
      reads this
    {
      Cloud(state, subState, connectRetries, connectCheckWork)
    }

    ghost predicate Valid()
      reads this
    {
      limit < RETRIES_BOUND && connectRetries <= limit + 1
    }

    constructor (limit: nat)
      requires limit < RETRIES_BOUND
      ensures Valid() && this.limit == limit && actions == []
      ensures View() == Cloud(LTE_INIT, CLOUD_DISCONNECTED, 0, Idle)
    {
      this.limit := limit;
      state, subState, connectRetries, connectCheckWork, actions := LTE_INIT, CLOUD_DISCONNECTED, 0, Idle, [];
    }

    /** The delay is looked up before the number of attempts is checked. */
    method ConnectCloud()
      requires Valid()
      modifies this
      ensures Valid()
      ensures var s := Connected(old(View()), limit); View() == s.cloud && actions == old(actions) + s.actions
    {
      var backoffSec := BACKOFF_DELAY[connectRetries];
      if connectRetries > limit {
        actions := actions + [Unreachable];
        return;
      }
      connectRetries := connectRetries + 1;
      connectCheckWork := Running(backoffSec);
      actions := actions + [Attempt(backoffSec)];
    }

    method DisconnectCloud()
      requires Valid()
      modifies this
      ensures Valid()
      ensures var s := Disconnected(old(View())); View() == s.cloud && actions == old(actions) + s.actions
    {
      connectRetries := 0;
      connectCheckWork := Idle;
      actions := actions + [Reset];
    }

    method OnSubState(e: Event)
      requires Valid()
      modifies this
      ensures Valid()
      ensures var s := InSubState(old(View()), e, limit); View() == s.cloud && actions == old(actions) + s.actions
    {
      match subState {
        case CLOUD_CONNECTED =>
          if e.CloudDisconnected? {
            subState := CLOUD_DISCONNECTED;
            connectCheckWork := Running(1);
          }
        case CLOUD_DISCONNECTED =>
          if e.CloudConnected? {
            subState := CLOUD_CONNECTED;
            connectRetries := 0;
            connectCheckWork := Idle;
            actions := actions + [Reset];
          }
          if e.ConnectionTimeout? {
            ConnectCloud();
          }
      }
    }

    method OnStateLteConnected(e: Event)
      requires Valid()
      modifies this
      ensures Valid()
      ensures var s := if e.LteDisconnected? || e.FotaPending? || e.FotaStopped?
                       then InLteConnected(old(View()), e, limit) else Step(old(View()), []);
              View() == s.cloud && actions == old(actions) + s.actions
    {
      if e.LteDisconnected? {
        subState := CLOUD_DISCONNECTED;
        state := LTE_DISCONNECTED;
        DisconnectCloud();
      }
      if e.FotaPending? {
        subState := CLOUD_DISCONNECTED;
        DisconnectCloud();
      }
      if e.FotaStopped? {
        ConnectCloud();
      }
    }

    /** The message loop, the cloud library's callbacks and the timer's handler. */
    method Handle(e: Event)
      requires Valid()
      modifies this
      ensures Valid()
      ensures var s := Handled(old(View()), e, limit); View() == s.cloud && actions == old(actions) + s.actions
    {
      if e.UserAssociationRequest? {
        connectCheckWork := Idle;
        connectRetries := 0;
        actions := actions + [Reset];
        return;
      }
      if e.UserAssociated? {
        if connectCheckWork.Idle? {
          connectCheckWork := Running(5);
        }
        return;
      }
      if e.TimerFires? {
        connectCheckWork := Idle;
        return;
      }
      match state {
        case LTE_INIT =>
          if e.ModemInitialized? {
            state := LTE_DISCONNECTED;
          }
        case LTE_CONNECTED =>
          OnSubState(e);
          OnStateLteConnected(e);
        case LTE_DISCONNECTED =>
          if e.LteConnected? {
            state := LTE_CONNECTED;
            ConnectCloud();
          }
        case SHUTDOWN =>
      }
      if e.ShutdownRequest? {
        state := SHUTDOWN;
      }
    }
  }

  // ----- Whole runs -----

  /** The attempts since the last reset. */
  function SinceReset(actions: seq<Action>): seq<Action> {
    if actions == [] || actions[|actions| - 1].Reset? then []
    else
      var last := actions[|actions| - 1];
      SinceReset(actions[..|actions| - 1]) + if last.Attempt? then [last] else []
  }

  /** The attempts of one round, with the delays in the order of the table. */
  function Attempts(n: nat): seq<Action>
    requires n <= |BACKOFF_DELAY|
  {
    if n == 0 then [] else Attempts(n - 1) + [Attempt(BACKOFF_DELAY[n - 1])]
  }

  lemma {:induction false} AttemptsLength(n: nat)
    requires n <= |BACKOFF_DELAY|
    ensures |Attempts(n)| == n
  {
    if n > 0 {
      AttemptsLength(n - 1);
    }
  }

  /** The error is raised only after one attempt more than the limit allows retries. */
  ghost predicate ErrorsDeserved(actions: seq<Action>, limit: nat) {
    forall k :: 0 <= k < |actions| && actions[k].Unreachable? ==> |SinceReset(actions[..k])| == limit + 1
  }

  ghost predicate Inv(c: Cloud, actions: seq<Action>, limit: nat) {
    && limit < RETRIES_BOUND
    && c.retries <= limit + 1
    && SinceReset(actions) == Attempts(c.retries)
    && ErrorsDeserved(actions, limit)
    && (c.subState.CLOUD_CONNECTED? ==> c.state.LTE_CONNECTED? || c.state.SHUTDOWN?)
  }

  lemma ErrorsAppend(actions: seq<Action>, a: Action, limit: nat)
    requires ErrorsDeserved(actions, limit) && (a.Unreachable? ==> |SinceReset(actions)| == limit + 1)
    ensures ErrorsDeserved(actions + [a], limit)
  {
    var all := actions + [a];
    forall k | 0 <= k < |all| && all[k].Unreachable?
      ensures |SinceReset(all[..k])| == limit + 1
    {
      if k < |actions| {
        assert actions[k] == all[k] && all[..k] == actions[..k];
      } else {
        assert all[..k] == actions;
      }
    }
  }

  lemma ActionKeeps(c: Cloud, actions: seq<Action>, limit: nat, d: Cloud, a: Action)
    requires Inv(c, actions, limit)
    requires d.subState.CLOUD_CONNECTED? ==> d.state.LTE_CONNECTED? || d.state.SHUTDOWN?
    requires match a
             case Reset => d.retries == 0
             case Unreachable => d.retries == c.retries == limit + 1
             case Attempt(delay) => c.retries <= limit && d.retries == c.retries + 1 && delay == BACKOFF_DELAY[c.retries]
    ensures Inv(d, actions + [a], limit)
  {
    AttemptsLength(c.retries);
    ErrorsAppend(actions, a, limit);
    hide SinceReset, ErrorsDeserved;
  }

  lemma StepKeeps(c: Cloud, actions: seq<Action>, limit: nat, e: Event)
    requires Inv(c, actions, limit)
    ensures var s := Handled(c, e, limit); Inv(s.cloud, actions + s.actions, limit)
  {
    var s := Handled(c, e, limit);
    if s.actions == [] {
      assert actions + [] == actions;
    } else {
      assert s.actions == [s.actions[0]];
      hide Inv;
      assert c.retries <= limit + 1 && limit < RETRIES_BOUND by {
        Bounds(c, actions, limit);
      }
      assert c.subState.CLOUD_CONNECTED? ==> c.state.LTE_CONNECTED? || c.state.SHUTDOWN? by {
        Bounds(c, actions, limit);
      }
      ActionKeeps(c, actions, limit, s.cloud, s.actions[0]);
    }
  }

  lemma Bounds(c: Cloud, actions: seq<Action>, limit: nat)
    requires Inv(c, actions, limit)
    ensures c.retries <= limit + 1 && limit < RETRIES_BOUND
    ensures c.subState.CLOUD_CONNECTED? ==> c.state.LTE_CONNECTED? || c.state.SHUTDOWN?
  {
  }

  ghost function Run(c: Cloud, actions: seq<Action>, limit: nat, events: seq<Event>): (s: Step)
    requires Inv(c, actions, limit)
    ensures Inv(s.cloud, s.actions, limit)
    decreases |events|
  {
    if events == [] then Step(c, actions)
    else
      StepKeeps(c, actions, limit, events[0]);
      var s := Handled(c, events[0], limit);
      Run(s.cloud, actions + s.actions, limit, events[1..])
  }

  const POWER_UP := Cloud(LTE_INIT, CLOUD_DISCONNECTED, 0, Idle)

  /** In every reachable state the counter is the number of attempts since the last reset, at most
      one more than the limit, so every look-up stays inside the table; the delays since the reset
      are the table's, in order; the error is raised only after that many attempts without reset;
      and a connected cloud implies a connected LTE link or shutdown. */
  lemma RetriesAreAttempts(limit: nat, events: seq<Event>)
    requires limit < RETRIES_BOUND
    ensures Inv(POWER_UP, [], limit)
    ensures var s := Run(POWER_UP, [], limit, events);
            && s.cloud.retries == |SinceReset(s.actions)| <= limit + 1 < |BACKOFF_DELAY|
            && SinceReset(s.actions) == Attempts(s.cloud.retries)
            && ErrorsDeserved(s.actions, limit)
            && (s.cloud.subState.CLOUD_CONNECTED? ==> s.cloud.state.LTE_CONNECTED? || s.cloud.state.SHUTDOWN?)
  {
    var s := Run(POWER_UP, [], limit, events);
    AttemptsLength(s.cloud.retries);
  }

  lemma {:induction false} AttemptsAt(n: nat, i: nat)
    requires i < n <= |BACKOFF_DELAY|
    ensures |Attempts(n)| == n && Attempts(n)[i] == Attempt(BACKOFF_DELAY[i])
  {
    AttemptsLength(n);
    AttemptsLength(n - 1);
    if i < n - 1 {
      AttemptsAt(n - 1, i);
    }
  }

  /** So, in every reachable state, each attempt since the last reset was followed by a longer delay
      than the one before it: twice as long, except after the fifth. */
  lemma DelaysGrow(limit: nat, events: seq<Event>, i: nat, j: nat)
    requires limit < RETRIES_BOUND
    ensures Inv(POWER_UP, [], limit)
    ensures var round := SinceReset(Run(POWER_UP, [], limit, events).actions);
            i < j < |round| ==>
              && round[i].Attempt? && round[j].Attempt? && round[i].delay < round[j].delay
              && (j == i + 1 ==> (round[j].delay == 2 * round[i].delay <==> i != 4))
  {
    RetriesAreAttempts(limit, events);
    var n := Run(POWER_UP, [], limit, events).cloud.retries;
    if i < j < n {
      AttemptsAt(n, i);
      AttemptsAt(n, j);
      BackoffGrows(i, j);
    }
    hide Run, SinceReset, Attempts, ErrorsDeserved;
  }

  // ----- The timer -----

  /** The event makes the module try to connect. */
  predicate Tries(c: Cloud, e: Event) {
    || (c.state == LTE_DISCONNECTED && e == LteConnected)
    || (c.state == LTE_CONNECTED && (e == FotaStopped || (c.subState == CLOUD_DISCONNECTED && e == ConnectionTimeout)))
  }

  /** The event ends the retries. */
  predicate EndsRetries(c: Cloud, e: Event) {
    || e == UserAssociationRequest
    || (c.state == LTE_CONNECTED && (e == LteDisconnected || e == FotaPending
                                     || (c.subState == CLOUD_DISCONNECTED && e == CloudConnected)))
  }

  /** What every event does in every state to counter and timer: an attempt sets the timer to the
      delay of the table, the end of the retries stops it, a lost connection sets it to a second and
      the user's association, if it is not running, to five. */
  lemma EventsAndTimer(c: Cloud, e: Event, limit: nat)
    requires c.retries < |BACKOFF_DELAY|
    ensures var s := Handled(c, e, limit);
            if Tries(c, e) && c.retries <= limit then
              var delay := [32, 64, 128, 256, 512, 2048, 4096, 8192, 16384, 32768, 65536, 131072, 262144, 524288,
                            1048576][c.retries];
              s.actions == [Attempt(delay)] && s.cloud.retries == c.retries + 1 && s.cloud.timer == Running(delay)
            else if Tries(c, e) then
              s.actions == [Unreachable] && s.cloud.retries == c.retries && s.cloud.timer == c.timer
            else if EndsRetries(c, e) then s.actions == [Reset] && s.cloud.retries == 0 && s.cloud.timer == Idle
            else
              && s.actions == [] && s.cloud.retries == c.retries
              && s.cloud.timer ==
                   if e == TimerFires then Idle
                   else if e == UserAssociated && c.timer == Idle then Running(5)
                   else if c.state == LTE_CONNECTED && c.subState == CLOUD_CONNECTED && e == CloudDisconnected
                   then Running(1) else c.timer
  {
  }

  /** And to the two states. */
  lemma EventsAndStates(c: Cloud, e: Event, limit: nat)
    requires c.retries < |BACKOFF_DELAY|
    ensures var d := Handled(c, e, limit).cloud;
            && d.state == (if e == ShutdownRequest then SHUTDOWN
                           else if c.state == LTE_INIT && e == ModemInitialized then LTE_DISCONNECTED
                           else if c.state == LTE_DISCONNECTED && e == LteConnected then LTE_CONNECTED
                           else if c.state == LTE_CONNECTED && e == LteDisconnected then LTE_DISCONNECTED
                           else c.state)
            && d.subState == (if c.state != LTE_CONNECTED then c.subState
                              else if e == CloudConnected then CLOUD_CONNECTED
                              else if e == LteDisconnected || e == FotaPending || e == CloudDisconnected
                              then CLOUD_DISCONNECTED else c.subState)
  {
  }

  lemma SinceResetAppend(actions: seq<Action>, a: Action)
    ensures SinceReset(actions + [a]) ==
              if a.Reset? then [] else SinceReset(actions) + if a.Attempt? then [a] else []
  {
    assert (actions + [a])[..|actions|] == actions;
  }

  /** A running timer runs for a second, for five, or for the delay of the newest attempt. */
  ghost predicate TimerOfAttempt(c: Cloud, actions: seq<Action>) {
    var round := SinceReset(actions);
    c.timer.Running? ==>
      || c.timer.seconds == 1 || c.timer.seconds == 5
      || (round != [] && round[|round| - 1] == Attempt(c.timer.seconds))
  }

  lemma TimerStep(c: Cloud, actions: seq<Action>, limit: nat, e: Event)
    requires c.retries < |BACKOFF_DELAY| && TimerOfAttempt(c, actions)
    ensures var s := Handled(c, e, limit); TimerOfAttempt(s.cloud, actions + s.actions)
  {
    var s := Handled(c, e, limit);
    EventsAndTimer(c, e, limit);
    hide Handled, SinceReset, BACKOFF_DELAY;
    if s.actions == [] {
      assert actions + [] == actions;
    } else {
      assert s.actions == [s.actions[0]];
      SinceResetAppend(actions, s.actions[0]);
    }
  }

  lemma {:induction false} RunTimer(c: Cloud, actions: seq<Action>, limit: nat, events: seq<Event>)
    requires Inv(c, actions, limit) && TimerOfAttempt(c, actions)
    ensures var s := Run(c, actions, limit, events); TimerOfAttempt(s.cloud, s.actions)
    decreases |events|
  {
    if events != [] {
      Bounds(c, actions, limit);
      StepKeeps(c, actions, limit, events[0]);
      TimerStep(c, actions, limit, events[0]);
      hide TimerOfAttempt, Inv, Handled;
      var s := Handled(c, events[0], limit);
      RunTimer(s.cloud, actions + s.actions, limit, events[1..]);
    }
  }

  /** So over every run from power-up the module waits as long as it has recorded. */
  lemma TimerFollowsAttempts(limit: nat, events: seq<Event>)
    requires limit < RETRIES_BOUND
    ensures Inv(POWER_UP, [], limit)
    ensures var s := Run(POWER_UP, [], limit, events); TimerOfAttempt(s.cloud, s.actions)
  {
    RunTimer(POWER_UP, [], limit, events);
  }

  // ----- The cloud library's own thread -----

  /** How far connect_cloud has come: after cloud_wrap_connect, and after loading the counter it is
      about to increment.  The library can reset the counter at any of these points. */
  datatype Stage = Calm | Called(delay: nat) | Loaded(delay: nat, read: nat)

  datatype Threads = Threads(cloud: Cloud, stage: Stage, actions: seq<Action>)

  datatype Move = Begin(e: Event) | Load | Store | LibraryReset

  predicate CanMove(s: Threads, m: Move) {
    match m
    case Begin(_) => s.stage.Calm? && s.cloud.retries < |BACKOFF_DELAY|
    case Load => s.stage.Called?
    case Store => s.stage.Loaded?
    case LibraryReset => true
  }

  function Moved(s: Threads, m: Move, limit: nat): Threads
    requires CanMove(s, m)
  {
    match m
    case Begin(e) =>
      var h := Handled(s.cloud, e, limit);
      var all := s.actions + h.actions;
      if h.actions != [] && h.actions[0].Attempt?
      then Threads(h.cloud.(retries := s.cloud.retries, timer := s.cloud.timer), Called(h.actions[0].delay), all)
      else Threads(h.cloud, Calm, all)
    case Load => s.(stage := Loaded(s.stage.delay, s.cloud.retries))
    case Store => s.(cloud := s.cloud.(retries := s.stage.read + 1, timer := Running(s.stage.delay)), stage := Calm)
    case LibraryReset => s.(cloud := s.cloud.(retries := 0, timer := Idle), actions := s.actions + [Reset])
  }

  /** What the counter will be once the attempt under way is counted. */
  function Upcoming(s: Threads): nat {
    match s.stage
    case Calm => s.cloud.retries
    case Called(_) => s.cloud.retries + 1
    case Loaded(_, read) => read + 1
  }

  /** The step zeroes the counter, in whichever thread. */
  predicate Resets(s: Threads, m: Move, limit: nat)
    requires CanMove(s, m)
  {
    match m
    case Begin(e) => Handled(s.cloud, e, limit).actions == [Reset]
    case LibraryReset => true
    case _ => false
  }

  /** `calm` says that the last reset so far, if any, came between attempts and not in the middle of
      connect_cloud.  The counter to come is then the number of attempts since it, and otherwise
      more. */
  ghost predicate Counts(s: Threads, limit: nat, calm: bool) {
    && limit < RETRIES_BOUND
    && s.cloud.retries <= limit + 1
    && Upcoming(s) <= limit + 1
    && |SinceReset(s.actions)| <= Upcoming(s)
    && (|SinceReset(s.actions)| == Upcoming(s) <==> calm)
  }

  function CalmAfter(s: Threads, m: Move, limit: nat, calm: bool): bool
    requires CanMove(s, m)
  {
    if Resets(s, m, limit) then s.stage.Calm? else calm
  }

  /** What handling an event does to the counter. */
  lemma HandledRetries(c: Cloud, e: Event, limit: nat)
    requires c.retries < |BACKOFF_DELAY|
    ensures var h := Handled(c, e, limit);
            || (h.actions == [] && h.cloud.retries == c.retries)
            || (h.actions == [Reset] && h.cloud.retries == 0)
            || (h.actions == [Unreachable] && h.cloud.retries == c.retries)
            || (|h.actions| == 1 && h.actions[0].Attempt? && c.retries <= limit)
  {
  }

  lemma BeginKeeps(s: Threads, e: Event, limit: nat, calm: bool)
    requires Counts(s, limit, calm) && CanMove(s, Begin(e))
    ensures Counts(Moved(s, Begin(e), limit), limit, CalmAfter(s, Begin(e), limit, calm))
  {
    var h := Handled(s.cloud, e, limit);
    HandledRetries(s.cloud, e, limit);
    hide Handled, SinceReset;
    if h.actions == [] {
      assert s.actions + [] == s.actions;
    } else {
      assert h.actions == [h.actions[0]];
      SinceResetAppend(s.actions, h.actions[0]);
    }
  }

  lemma MoveKeeps(s: Threads, m: Move, limit: nat, calm: bool)
    requires Counts(s, limit, calm) && CanMove(s, m)
    ensures Counts(Moved(s, m, limit), limit, CalmAfter(s, m, limit, calm))
  {
    if m.Begin? {
      BeginKeeps(s, m.e, limit, calm);
    } else {
      SinceResetAppend(s.actions, Reset);
      hide Handled, SinceReset;
    }
  }

  predicate CanMoves(s: Threads, limit: nat, ms: seq<Move>)
    decreases |ms|
  {
    ms == [] || (CanMove(s, ms[0]) && CanMoves(Moved(s, ms[0], limit), limit, ms[1..]))
  }

  function Moves(s: Threads, limit: nat, ms: seq<Move>): Threads
    requires CanMoves(s, limit, ms)
    decreases |ms|
  {
    if ms == [] then s else Moves(Moved(s, ms[0], limit), limit, ms[1..])
  }

  /** The last reset of the run, or `calm` without any, came between attempts. */
  function LastResetCalm(s: Threads, limit: nat, ms: seq<Move>, calm: bool): bool
    requires CanMoves(s, limit, ms)
    decreases |ms|
  {
    if ms == [] then calm
    else LastResetCalm(Moved(s, ms[0], limit), limit, ms[1..], CalmAfter(s, ms[0], limit, calm))
  }

  lemma {:induction false} MovesKeep(s: Threads, limit: nat, ms: seq<Move>, calm: bool)
    requires Counts(s, limit, calm) && CanMoves(s, limit, ms)
    ensures Counts(Moves(s, limit, ms), limit, LastResetCalm(s, limit, ms, calm))
    decreases |ms|
  {
    if ms != [] {
      MoveKeeps(s, ms[0], limit, calm);
      hide Counts, Moved, CalmAfter;
      MovesKeep(Moved(s, ms[0], limit), limit, ms[1..], CalmAfter(s, ms[0], limit, calm));
    }
  }

  const START := Threads(POWER_UP, Calm, [])

  /** Every interleaving of the module with the library's resets from power-up: look-ups stay inside
      the table, and the counter to come is at least the number of attempts since the last reset;
      equal to it if and only if that reset did not come in the middle of an attempt. */
  lemma RacingRetries(limit: nat, ms: seq<Move>)
    requires limit < RETRIES_BOUND && CanMoves(START, limit, ms)
    ensures var t := Moves(START, limit, ms);
            && t.cloud.retries <= limit + 1 < |BACKOFF_DELAY|
            && |SinceReset(t.actions)| <= Upcoming(t)
            && (|SinceReset(t.actions)| == Upcoming(t) <==> LastResetCalm(START, limit, ms, true))
  {
    MovesKeep(START, limit, ms, true);
    hide SinceReset, LastResetCalm;
  }

  /** An error raised at the end of such a run comes after one attempt more than the limit allows
      retries if and only if the last reset did not come in the middle of an attempt; otherwise it
      comes earlier. */
  lemma ErrorDeservedIff(limit: nat, ms: seq<Move>, e: Event)
    requires limit < RETRIES_BOUND && CanMoves(START, limit, ms)
    requires var t := Moves(START, limit, ms);
             CanMove(t, Begin(e)) && Handled(t.cloud, e, limit).actions == [Unreachable]
    ensures var t := Moves(START, limit, ms);
            && |SinceReset(t.actions)| <= limit + 1
            && (|SinceReset(t.actions)| == limit + 1 <==> LastResetCalm(START, limit, ms, true))
  {
    RacingRetries(limit, ms);
    hide SinceReset, LastResetCalm, Moves, CanMoves;
  }

  // ----- An early error -----

  lemma MovesOne(s: Threads, limit: nat, m: Move, ms: seq<Move>)
    requires CanMove(s, m) && CanMoves(Moved(s, m, limit), limit, ms)
    ensures CanMoves(s, limit, [m] + ms) && Moves(s, limit, [m] + ms) == Moves(Moved(s, m, limit), limit, ms)
  {
    hide Moved, CanMove;
    assert ([m] + ms)[1..] == ms;
  }

  /** A reset between loading and storing the counter is lost: no attempt has been made since, but the
      counter goes on from where it was.  One just before the load leaves the attempt counted. */
  lemma LostReset(s: Threads, limit: nat)
    requires s.stage.Called?
    ensures CanMoves(s, limit, [Load, LibraryReset, Store]) && CanMoves(s, limit, [LibraryReset, Load, Store])
    ensures var t := Moves(s, limit, [Load, LibraryReset, Store]);
            && t.stage.Calm? && t.cloud.retries == s.cloud.retries + 1 && SinceReset(t.actions) == []
            && t.cloud.state == s.cloud.state && t.cloud.subState == s.cloud.subState
    ensures var t := Moves(s, limit, [LibraryReset, Load, Store]);
            t.stage.Calm? && t.cloud.retries == 1 && SinceReset(t.actions) == []
  {
    SinceResetAppend(s.actions, Reset);
    MovesThree(s, limit, Load, LibraryReset, Store);
    MovesThree(s, limit, LibraryReset, Load, Store);
    hide SinceReset;
  }

  lemma MovesThree(s: Threads, limit: nat, a: Move, b: Move, c: Move)
    requires CanMove(s, a)
    requires CanMove(Moved(s, a, limit), b)
    requires CanMove(Moved(Moved(s, a, limit), b, limit), c)
    ensures CanMoves(s, limit, [a, b, c])
    ensures Moves(s, limit, [a, b, c]) == Moved(Moved(Moved(s, a, limit), b, limit), c, limit)
  {
    var s1 := Moved(s, a, limit);
    var s2 := Moved(s1, b, limit);
    hide Moved, CanMove;
    MovesOne(s2, limit, c, []);
    MovesOne(s1, limit, b, [c]);
    MovesOne(s, limit, a, [b, c]);
  }

  lemma {:induction false} MovesThen(s: Threads, limit: nat, ms: seq<Move>, more: seq<Move>)
    requires CanMoves(s, limit, ms) && CanMoves(Moves(s, limit, ms), limit, more)
    ensures CanMoves(s, limit, ms + more) && Moves(s, limit, ms + more) == Moves(Moves(s, limit, ms), limit, more)
    decreases |ms|
  {
    if ms == [] {
      assert ms + more == more;
    } else {
      MovesThen(Moved(s, ms[0], limit), limit, ms[1..], more);
      hide Moved, CanMove;
      assert ms + more == [ms[0]] + (ms[1..] + more);
      MovesOne(s, limit, ms[0], ms[1..] + more);
    }
  }

  /** Connected to LTE but not to the cloud, between attempts. */
  predicate Retrying(s: Threads, retries: nat) {
    && s.stage.Calm? && s.cloud.state.LTE_CONNECTED? && s.cloud.subState.CLOUD_DISCONNECTED?
    && s.cloud.retries == retries
  }

  /** Whole attempts, one after the other. */
  function Attempting(n: nat): seq<Move> {
    if n == 0 then [] else [Begin(ConnectionTimeout), Load, Store] + Attempting(n - 1)
  }

  lemma OneAttempt(s: Threads, limit: nat, retries: nat)
    requires Retrying(s, retries) && retries <= limit < RETRIES_BOUND
    ensures CanMove(s, Begin(ConnectionTimeout))
    ensures Moved(s, Begin(ConnectionTimeout), limit).stage.Called?
    ensures CanMoves(s, limit, [Begin(ConnectionTimeout), Load, Store])
    ensures Retrying(Moves(s, limit, [Begin(ConnectionTimeout), Load, Store]), retries + 1)
  {
    MovesThree(s, limit, Begin(ConnectionTimeout), Load, Store);
  }

  lemma {:induction false} ManyAttempts(s: Threads, limit: nat, n: nat, retries: nat)
    requires Retrying(s, retries) && retries + n <= limit + 1 && limit < RETRIES_BOUND
    ensures CanMoves(s, limit, Attempting(n)) && Retrying(Moves(s, limit, Attempting(n)), retries + n)
    decreases n
  {
    if n > 0 {
      OneAttempt(s, limit, retries);
      hide Retrying, Moved, CanMove;
      var one := [Begin(ConnectionTimeout), Load, Store];
      ManyAttempts(Moves(s, limit, one), limit, n - 1, retries + 1);
      MovesThen(s, limit, one, Attempting(n - 1));
    }
  }

  /** The first attempt after LTE has connected, undone by a reset of the library. */
  const CONNECTING: seq<Move> :=
    [Begin(ModemInitialized), Begin(LteConnected)] + [Load, Store, LibraryReset]

  lemma ConnectingRetries(limit: nat)
    requires limit < RETRIES_BOUND
    ensures CanMoves(START, limit, CONNECTING) && Retrying(Moves(START, limit, CONNECTING), 0)
  {
    var s1 := Moved(START, Begin(ModemInitialized), limit);
    var s2 := Moved(s1, Begin(LteConnected), limit);
    assert s2.stage.Called? && s2.cloud.state.LTE_CONNECTED? && s2.cloud.subState.CLOUD_DISCONNECTED?;
    MovesThree(s2, limit, Load, Store, LibraryReset);
    hide Moved, CanMove;
    MovesOne(s1, limit, Begin(LteConnected), [Load, Store, LibraryReset]);
    MovesOne(START, limit, Begin(ModemInitialized), [Begin(LteConnected)] + [Load, Store, LibraryReset]);
    assert CONNECTING == [Begin(ModemInitialized)] + ([Begin(LteConnected)] + [Load, Store, LibraryReset]);
  }

  /** For every limit there is a run from power-up after which the next timeout raises the error
      although no attempt has been made since the last reset. */
  lemma EarlyError(limit: nat) returns (ms: seq<Move>)
    requires limit < RETRIES_BOUND
    ensures ms == CONNECTING + (Attempting(limit) + ([Begin(ConnectionTimeout)] + [Load, LibraryReset, Store]))
    ensures CanMoves(START, limit, ms)
    ensures var t := Moves(START, limit, ms);
            && SinceReset(t.actions) == []
            && CanMove(t, Begin(ConnectionTimeout))
            && Handled(t.cloud, ConnectionTimeout, limit).actions == [Unreachable]
  {
    var last := [Begin(ConnectionTimeout)] + [Load, LibraryReset, Store];
    ConnectingRetries(limit);
    var s1 := Moves(START, limit, CONNECTING);
    ManyAttempts(s1, limit, limit, 0);
    var s2 := Moves(s1, limit, Attempting(limit));
    OneAttempt(s2, limit, limit);
    var s3 := Moved(s2, Begin(ConnectionTimeout), limit);
    LostReset(s3, limit);
    assert s3.cloud.retries == limit && s3.cloud.state.LTE_CONNECTED? && s3.cloud.subState.CLOUD_DISCONNECTED?;
    hide Moved, SinceReset, Moves, CanMoves;
    MovesOne(s2, limit, Begin(ConnectionTimeout), [Load, LibraryReset, Store]);
    MovesThen(s1, limit, Attempting(limit), last);
    MovesThen(START, limit, CONNECTING, Attempting(limit) + last);
    ms := CONNECTING + (Attempting(limit) + last);
  }
}
