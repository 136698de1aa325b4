/** Shutting the application down: modules register when they start and acknowledge a shutdown
    request, the utility module requests it and reboots early once all have acknowledged
    (asset_tracker_v2/src/modules/modules_common.c, asset_tracker_v2/src/modules/util_module.c). */
module ShutdownProtocol {

  // ----- The list of modules, undisturbed -----

  datatype Module = Module(id: nat, supportsShutdown: bool)

  /** The first position from `i` on whose module has this id, or the length of the list. */
  function FirstWith(list: seq<Module>, id: nat, i: nat): (k: nat)
    requires i <= |list|
    ensures i <= k <= |list|
    ensures k < |list| ==> list[k].id == id
    ensures forall j :: i <= j < k ==> list[j].id != id
    decreases |list| - i
  {
    if i == |list| || list[i].id == id then i else FirstWith(list, id, i + 1)
  }

  function Supporting(list: seq<Module>): nat {
    if list == [] then 0
    else Supporting(list[..|list| - 1]) + if list[|list| - 1].supportsShutdown then 1 else 0
  }

  lemma SupportingPush(list: seq<Module>, m: Module)
    ensures Supporting(list + [m]) == Supporting(list) + if m.supportsShutdown then 1 else 0
  {
    assert (list + [m])[..|list|] == list;
  }

  lemma {:induction false} SupportingRemove(list: seq<Module>, k: nat)
    requires k < |list|
    ensures Supporting(list) == Supporting(list[..k] + list[k + 1..]) + if list[k].supportsShutdown then 1 else 0
    decreases |list|
  {
    hide *;
    var n := |list| - 1;
    SupportingPush(list[..n], list[n]);
    assert list[..n] + [list[n]] == list;
    if k == n {
      RemoveLast(list);
    } else {
      SupportingRemove(list[..n], k);
      RemoveBefore(list, n, k);
      SupportingPush(list[..n][..k] + list[..n][k + 1..], list[n]);
    }
  }

  lemma RemoveLast<T>(list: seq<T>)
    requires list != []
    ensures list[..|list| - 1] + list[|list|..] == list[..|list| - 1]
  {
  }

  lemma RemoveBefore<T>(list: seq<T>, n: nat, k: nat)
    requires k < n == |list| - 1
    ensures (list[..n][..k] + list[..n][k + 1..]) + [list[n]] == list[..k] + list[k + 1..]
  {
  }

  lemma {:induction false} SupportingNone(list: seq<Module>)
    ensures Supporting(list) == 0 <==> forall k :: 0 <= k < |list| ==> !list[k].supportsShutdown
    decreases |list|
  {
    if list != [] {
      SupportingNone(list[..|list| - 1]);
      assert forall k :: 0 <= k < |list| - 1 ==> list[..|list| - 1][k] == list[k];
    }
  }

  /** The list after a registration: without the first module with the id, if it supports shutdown. */
  function Registered(list: seq<Module>, id: nat): seq<Module> {
    var k := FirstWith(list, id, 0);
    if id != 0 && k < |list| && list[k].supportsShutdown then list[..k] + list[k + 1..] else list
  }

  /** The id is not 0 nor that of a module without shutdown support, and no supporting module is left. */
  ghost predicate LastToRegister(list: seq<Module>, id: nat) {
    var k := FirstWith(list, id, 0);
    && id != 0
    && (k < |list| ==> list[k].supportsShutdown)
    && forall j :: 0 <= j < |Registered(list, id)| ==> !Registered(list, id)[j].supportsShutdown
  }

  class ModulesInfo {
    var list: seq<Module>
    var activeModulesCount: int
    var shutdownSupportedCount: int

    ghost predicate Valid()
      reads this
    {
      activeModulesCount == |list| && shutdownSupportedCount == Supporting(list)
    }

    constructor ()
      ensures Valid() && list == []
    {
      list, activeModulesCount, shutdownSupportedCount := [], 0, 0;
    }

    method Start(m: Module)
      requires Valid()
      modifies this
      ensures Valid() && list == old(list) + [m]
    {
      activeModulesCount := activeModulesCount + 1;
      if m.supportsShutdown {
        shutdownSupportedCount := shutdownSupportedCount + 1;
      }
      list := list + [m];
      assert list[..|list| - 1] == old(list);
    }

    method ShutdownRegister(idReg: nat) returns (retval: bool)
      requires Valid()
      modifies this
      ensures Valid() && list == Registered(old(list), idReg)
      ensures retval <==> LastToRegister(old(list), idReg)
    {
      retval := false;
      if idReg == 0 {
        return false;
      }
      var i := 0;
      while i < |list|
        invariant 0 <= i <= |list| && list == old(list) && Valid()
        invariant FirstWith(list, idReg, 0) == FirstWith(list, idReg, i)
      {
        if list[i].id == idReg {
          if list[i].supportsShutdown {
            SupportingRemove(list, i);
            list := list[..i] + list[i + 1..];
            activeModulesCount := activeModulesCount - 1;
            shutdownSupportedCount := shutdownSupportedCount - 1;
          } else {
            return false;
          }
          break;
        }
        i := i + 1;
      }
      SupportingNone(list);
      if shutdownSupportedCount == 0 {
        retval := true;
      }
    }
  }

  // ----- The utility module -----

  const CONFIG_REBOOT_TIMEOUT: nat := 30
  const ACKED_REBOOT_TIMEOUT: nat := 5

  datatype State = STATE_INIT | STATE_REBOOT_PENDING

  datatype RebootTimer = Unscheduled | Scheduled(seconds: nat)

  /** `requests` counts the shutdown requests emitted. */
  datatype Util = Util(state: State, errorSignaled: bool, timer: RebootTimer, requests: nat)

  datatype Message = ErrorOrRebootRequest | FotaDone | AppStart | Other

  function Requested(u: Util): Util {
    if u.errorSignaled then u
    else Util(STATE_REBOOT_PENDING, true, Scheduled(CONFIG_REBOOT_TIMEOUT), u.requests + 1)
  }

  /** `startFails`: module_start reports an error. */
  function Handled(u: Util, m: Message, startFails: bool): Util {
    var v := if u.state == STATE_INIT && (m.ErrorOrRebootRequest? || m.FotaDone?) then Requested(u) else u;
    if m.AppStart? then (if startFails then Requested(v) else v).(state := STATE_INIT) else v
  }

  /** A reboot is requested the first time only: by an error or request or a finished update while the
      module waits for one, and by a start that fails. */
  lemma FirstRequestOnly(u: Util, m: Message, startFails: bool)
    ensures var requests := && !u.errorSignaled
                            && ((u.state == STATE_INIT && (m == ErrorOrRebootRequest || m == FotaDone))
                                || (m == AppStart && startFails));
            Handled(u, m, startFails) ==
              if requests then Util(if m == AppStart then STATE_INIT else STATE_REBOOT_PENDING, true, Scheduled(30),
                                    u.requests + 1)
              else if m == AppStart then u.(state := STATE_INIT) else u
  {
  }

  class UtilModule {
    var state: State
    var errorSignaled: bool
    var timer: RebootTimer
    var requests: nat

    function View(): Util
      reads this
    {
      Util(state, errorSignaled, timer, requests)
    }

    constructor ()
      ensures View() == Util(STATE_INIT, false, Unscheduled, 0)
    {
      state, errorSignaled, timer, requests := STATE_INIT, false, Unscheduled, 0;
    }

    method SendRebootRequest()
      modifies this
      ensures View() == Requested(old(View()))
    {
      if !errorSignaled {
        timer := Scheduled(CONFIG_REBOOT_TIMEOUT);
        requests := requests + 1;
        state := STATE_REBOOT_PENDING;
        errorSignaled := true;
      }
    }

    method OnStateInit(m: Message)
      modifies this
      ensures View() == if m.ErrorOrRebootRequest? || m.FotaDone? then Requested(old(View())) else old(View())
    {
      if m.FotaDone? {
        SendRebootRequest();
      }
      if m.ErrorOrRebootRequest? {
        SendRebootRequest();
        return;
      }
    }

    method OnAllStates(m: Message, startFails: bool)
      modifies this
      ensures View() == if m.AppStart? then
                          (if startFails then Requested(old(View())) else old(View())).(state := STATE_INIT)
                        else old(View())
    {
      if m.AppStart? {
        if startFails {
          SendRebootRequest();
        }
        state := STATE_INIT;
      }
    }

    method HandleMessage(m: Message, startFails: bool)
      modifies this
      ensures View() == Handled(old(View()), m, startFails)
    {
      match state {
        case STATE_INIT =>
          OnStateInit(m);
        case STATE_REBOOT_PENDING =>
      }
      OnAllStates(m, startFails);
    }

    /** A SHUTDOWN_READY event: only looked at while a reboot is pending. */
    method HandleShutdownReady(id: nat, modules: ModulesInfo)
      requires modules.Valid()
      modifies this, modules
      ensures modules.Valid()
      ensures modules.list == if old(state) == STATE_REBOOT_PENDING then Registered(old(modules.list), id)
                              else old(modules.list)
      ensures View() == if old(state) == STATE_REBOOT_PENDING && LastToRegister(old(modules.list), id)
                        then old(View()).(timer := Scheduled(ACKED_REBOOT_TIMEOUT)) else old(View())
    {
      if state == STATE_REBOOT_PENDING {
        var acked := modules.ShutdownRegister(id);
        if acked {
          timer := Scheduled(ACKED_REBOOT_TIMEOUT);
        }
      }
    }
  }

  // ----- Every interleaving -----

  /** How far a module has come in module_start, and in being removed.  `Unlinked` is off the list,
      `Deactivated` has also left the count of active modules. */
  datatype Phase = Fresh | Activated | Counted | Listed | Unlinked | Deactivated | Gone

  datatype Starter = Starter(id: nat, supports: bool, phase: Phase)

  /** Who holds the list's lock in modules_shutdown_register, and where. */
  datatype Holder = Free | Removing(m: nat) | Checking

  datatype System = System(
    mods: map<nat, Starter>,
    list: seq<nat>,
    active: int,
    supported: int,
    holder: Holder,
    util: Util)

  datatype Op =
    | Begin(m: nat, id: nat, supports: bool)
    | IncActive(m: nat)
    | IncSupported(m: nat)
    | Append(m: nat)
    | Ack(id: nat)     // util takes the lock and searches the list
    | Unlink
    | DecActive
    | DecSupported
    | Check            // the counter is compared with 0 and the lock released
    | Event(message: Message, startFails: bool)

  predicate InPhase(s: System, m: nat, p: Phase) {
    m in s.mods && s.mods[m].phase == p
  }

  predicate RemovingIn(s: System, p: Phase) {
    s.holder.Removing? && InPhase(s, s.holder.m, p)
  }

  predicate Enabled(s: System, op: Op) {
    match op
    case Begin(m, _, _) => m !in s.mods
    case IncActive(m) => InPhase(s, m, Fresh)
    case IncSupported(m) => InPhase(s, m, Activated)
    case Append(m) => InPhase(s, m, Counted) && s.holder.Free?
    case Ack(_) => s.util.state == STATE_REBOOT_PENDING && s.holder.Free?
    case Unlink => RemovingIn(s, Listed) && s.holder.m in s.list
    case DecActive => RemovingIn(s, Unlinked)
    case DecSupported => RemovingIn(s, Deactivated)
    case Check => s.holder.Checking?
    case Event(_, _) => true
  }

  function Moved(s: System, m: nat, p: Phase): System
    requires m in s.mods
  {
    s.(mods := s.mods[m := s.mods[m].(phase := p)])
  }

  function IndexOf(list: seq<nat>, m: nat): (k: nat)
    requires m in list
    ensures k < |list| && list[k] == m
  {
    if list[0] == m then 0 else 1 + IndexOf(list[1..], m)
  }

  function Without(list: seq<nat>, m: nat): seq<nat>
    requires m in list
  {
    list[..IndexOf(list, m)] + list[IndexOf(list, m) + 1..]
  }

  /** The listed module the search stops at. */
  function Search(s: System, id: nat, i: nat): (k: nat)
    requires i <= |s.list|
    ensures i <= k <= |s.list|
    decreases |s.list| - i
  {
    if i == |s.list| || (s.list[i] in s.mods && s.mods[s.list[i]].id == id) then i else Search(s, id, i + 1)
  }

  function Apply(s: System, op: Op): System
    requires Enabled(s, op)
  {
    match op
    case Begin(m, id, supports) => s.(mods := s.mods[m := Starter(id, supports, Fresh)])
    case IncActive(m) => Moved(s, m, Activated).(active := s.active + 1)
    case IncSupported(m) =>
      Moved(s, m, Counted).(supported := s.supported + if s.mods[m].supports then 1 else 0)
    case Append(m) => Moved(s, m, Listed).(list := s.list + [m])
    case Ack(id) =>
      var k := Search(s, id, 0);
      if id == 0 then s
      else if k == |s.list| || s.list[k] !in s.mods then s.(holder := Checking)
      else if s.mods[s.list[k]].supports then s.(holder := Removing(s.list[k]))
      else s
    case Unlink => Moved(s, s.holder.m, Unlinked).(list := Without(s.list, s.holder.m))
    case DecActive => Moved(s, s.holder.m, Deactivated).(active := s.active - 1)
    case DecSupported => Moved(s, s.holder.m, Gone).(supported := s.supported - 1, holder := Checking)
    case Check =>
      s.(holder := Free,
         util := if s.supported == 0 then s.util.(timer := Scheduled(ACKED_REBOOT_TIMEOUT)) else s.util)
    case Event(message, startFails) => s.(util := Handled(s.util, message, startFails))
  }

  // ----- The counters -----

  predicate CountsActive(p: Phase) {
    p.Activated? || p.Counted? || p.Listed? || p.Unlinked?
  }

  predicate CountsSupported(x: Starter) {
    x.supports && (x.phase.Counted? || x.phase.Listed? || x.phase.Unlinked? || x.phase.Deactivated?)
  }

  ghost function ActiveOnes(s: System): set<nat> {
    set m | m in s.mods && CountsActive(s.mods[m].phase)
  }

  ghost function SupportingOnes(s: System): set<nat> {
    set m | m in s.mods && CountsSupported(s.mods[m])
  }

  ghost predicate Distinct(list: seq<nat>) {
    forall i, j :: 0 <= i < j < |list| ==> list[i] != list[j]
  }

  ghost predicate Inv(s: System) {
    && s.active == |ActiveOnes(s)|
    && s.supported == |SupportingOnes(s)|
    && ListInv(s)
    && UtilInv(s.util)
    && (!s.holder.Free? ==> s.util.errorSignaled)
  }

  ghost predicate ListInv(s: System) {
    && Distinct(s.list)
    && (forall m :: m in s.list <==> InPhase(s, m, Listed))
    && (forall m :: InPhase(s, m, Unlinked) || InPhase(s, m, Deactivated) ==> s.holder == Removing(m))
    && (s.holder.Removing? ==>
          && s.holder.m in s.mods && s.mods[s.holder.m].supports
          && (RemovingIn(s, Listed) || RemovingIn(s, Unlinked) || RemovingIn(s, Deactivated)))
  }

  ghost predicate UtilInv(u: Util) {
    && u.requests == (if u.errorSignaled then 1 else 0)
    && (u.state == STATE_REBOOT_PENDING ==> u.errorSignaled)
    && (u.timer.Unscheduled? <==> !u.errorSignaled)
  }

  lemma Count(a: set<nat>, b: set<nat>, m: nat, before: bool, after: bool)
    requires before <==> m in a
    requires b == a - {m} + if after then {m} else {}
    ensures |b| == |a| - (if before then 1 else 0) + if after then 1 else 0
  {
    if before {
      assert |a - {m}| == |a| - 1;
    } else {
      assert a - {m} == a;
    }
    if !after {
      assert b == a - {m};
    }
  }

  lemma MovedActive(s: System, t: System, m: nat, x: Starter)
    requires t.mods == s.mods[m := x]
    ensures |ActiveOnes(t)| == |ActiveOnes(s)| - (if m in s.mods && CountsActive(s.mods[m].phase) then 1 else 0)
                               + if CountsActive(x.phase) then 1 else 0
  {
    hide CountsActive;
    assert ActiveOnes(t) == ActiveOnes(s) - {m} + if CountsActive(x.phase) then {m} else {};
    Count(ActiveOnes(s), ActiveOnes(t), m, m in ActiveOnes(s), CountsActive(x.phase));
  }

  lemma MovedSupporting(s: System, t: System, m: nat, x: Starter)
    requires t.mods == s.mods[m := x]
    ensures |SupportingOnes(t)| == |SupportingOnes(s)| - (if m in s.mods && CountsSupported(s.mods[m]) then 1 else 0)
                                   + if CountsSupported(x) then 1 else 0
  {
    hide CountsSupported;
    assert SupportingOnes(t) == SupportingOnes(s) - {m} + if CountsSupported(x) then {m} else {};
    Count(SupportingOnes(s), SupportingOnes(t), m, m in SupportingOnes(s), CountsSupported(x));
  }

  /** Moving one module on changes each count by at most that module. */
  lemma MovedCounts(s: System, t: System, m: nat)
    requires s.active == |ActiveOnes(s)| && s.supported == |SupportingOnes(s)|
    requires m in t.mods && t.mods == s.mods[m := t.mods[m]]
    requires t.active == s.active - (if m in s.mods && CountsActive(s.mods[m].phase) then 1 else 0)
                         + if CountsActive(t.mods[m].phase) then 1 else 0
    requires t.supported == s.supported - (if m in s.mods && CountsSupported(s.mods[m]) then 1 else 0)
                            + if CountsSupported(t.mods[m]) then 1 else 0
    ensures t.active == |ActiveOnes(t)| && t.supported == |SupportingOnes(t)|
  {
    MovedActive(s, t, m, t.mods[m]);
    MovedSupporting(s, t, m, t.mods[m]);
  }

  lemma SameCounts(s: System, t: System)
    requires s.mods == t.mods
    ensures ActiveOnes(t) == ActiveOnes(s) && SupportingOnes(t) == SupportingOnes(s)
  {
  }

  lemma {:induction false} WithoutIs(list: seq<nat>, m: nat)
    requires m in list && Distinct(list)
    ensures Distinct(Without(list, m))
    ensures forall x :: x in Without(list, m) <==> x in list && x != m
  {
    var k := IndexOf(list, m);
    var rest := Without(list, m);
    assert forall i :: 0 <= i < |rest| ==> rest[i] == list[if i < k then i else i + 1];
    forall x | x in list && x != m
      ensures x in rest
    {
      var i := IndexOf(list, x);
      assert rest[if i < k then i else i - 1] == x;
    }
  }

  /** A starter moves to a phase in which it is neither listed nor being removed. */
  lemma StarterKeepsList(s: System, m: nat, x: Starter)
    requires ListInv(s) && (m in s.mods ==> s.mods[m].phase.Fresh? || s.mods[m].phase.Activated?)
    requires x.phase.Fresh? || x.phase.Activated? || x.phase.Counted?
    ensures ListInv(s.(mods := s.mods[m := x]))
  {
    var t := s.(mods := s.mods[m := x]);
    assert m !in s.list;
    assert !(s.holder == Removing(m));
    hide Distinct;
  }

  lemma AppendKeepsList(s: System, m: nat)
    requires ListInv(s) && Enabled(s, Append(m))
    ensures ListInv(Apply(s, Append(m)))
  {
    var t := Apply(s, Append(m));
    assert m !in s.list;
  }

  lemma UnlinkKeepsList(s: System)
    requires ListInv(s) && Enabled(s, Unlink)
    ensures ListInv(Apply(s, Unlink))
  {
    var m := s.holder.m;
    WithoutIs(s.list, m);
    hide Without, Distinct;
  }

  lemma DecKeepsList(s: System)
    requires ListInv(s)
    ensures Enabled(s, DecActive) ==> ListInv(Apply(s, DecActive))
    ensures Enabled(s, DecSupported) ==> ListInv(Apply(s, DecSupported))
  {
    hide Distinct;
  }

  lemma AckKeepsList(s: System, id: nat)
    requires ListInv(s) && Enabled(s, Ack(id))
    ensures ListInv(Apply(s, Ack(id)))
  {
    var k := Search(s, id, 0);
    if k < |s.list| {
      assert s.list[k] in s.list;
    }
    hide Distinct, Search;
  }

  lemma StarterKeeps(s: System, op: Op)
    requires Inv(s) && Enabled(s, op) && (op.Begin? || op.IncActive? || op.IncSupported?)
    ensures Inv(Apply(s, op))
  {
    var t := Apply(s, op);
    StarterKeepsList(s, op.m, t.mods[op.m]);
    MovedCounts(s, t, op.m);
    hide ActiveOnes, SupportingOnes, ListInv, UtilInv;
  }

  lemma RemoverKeeps(s: System, op: Op)
    requires Inv(s) && Enabled(s, op) && (op.Unlink? || op.DecActive? || op.DecSupported?)
    ensures Inv(Apply(s, op))
  {
    var t := Apply(s, op);
    if op.Unlink? {
      UnlinkKeepsList(s);
    } else {
      DecKeepsList(s);
    }
    assert s.mods[s.holder.m].supports;
    hide ActiveOnes, SupportingOnes, ListInv, UtilInv, Without;
    MovedCounts(s, t, s.holder.m);
  }

  /** Every step of every interleaving keeps the counters. */
  lemma StepKeeps(s: System, op: Op)
    requires Inv(s) && Enabled(s, op)
    ensures Inv(Apply(s, op))
  {
    var t := Apply(s, op);
    match op {
      case Append(m) =>
        AppendKeepsList(s, m);
        hide ActiveOnes, SupportingOnes, ListInv, UtilInv;
        MovedCounts(s, t, m);
      case Ack(id) =>
        AckKeepsList(s, id);
        hide ListInv;
        SameCounts(s, t);
      case Check => SameCounts(s, t);
      case Event(message, startFails) => SameCounts(s, t);
      case _ =>
        hide Inv, Apply, Enabled;
        if op.Begin? || op.IncActive? || op.IncSupported? {
          StarterKeeps(s, op);
        } else {
          RemoverKeeps(s, op);
        }
    }
  }

  // ----- What the counters say -----

  ghost function InPhaseSupporting(s: System, p: Phase): set<nat> {
    set m | m in s.mods && s.mods[m].supports && s.mods[m].phase == p
  }

  /** The counter of supporting modules is the number listed, plus the starters between counting
      and listing themselves, plus the one being removed. */
  lemma SupportedCount(s: System)
    requires Inv(s)
    ensures s.supported == |InPhaseSupporting(s, Listed)| + |InPhaseSupporting(s, Counted)|
                           + if RemovingIn(s, Unlinked) || RemovingIn(s, Deactivated) then 1 else 0
  {
    var listed, counted := InPhaseSupporting(s, Listed), InPhaseSupporting(s, Counted);
    var leaving := if RemovingIn(s, Unlinked) || RemovingIn(s, Deactivated) then {s.holder.m} else {};
    SupportingParts(s);
    assert listed !! counted && (listed + counted) !! leaving;
    hide Inv, SupportingOnes, InPhaseSupporting, RemovingIn;
    Cardinalities(listed, counted, leaving);
  }

  lemma SupportingParts(s: System)
    requires ListInv(s)
    ensures SupportingOnes(s) == InPhaseSupporting(s, Listed) + InPhaseSupporting(s, Counted)
                                 + if RemovingIn(s, Unlinked) || RemovingIn(s, Deactivated) then {s.holder.m} else {}
  {
    forall m | m in SupportingOnes(s)
      ensures InPhase(s, m, s.mods[m].phase)
    {
    }
    hide Distinct;
  }

  lemma Cardinalities(a: set<nat>, b: set<nat>, c: set<nat>)
    requires a !! b && (a + b) !! c
    ensures |a + b + c| == |a| + |b| + |c|
  {
    assert |a + b| == |a| + |b|;
  }

  /** The registration answers true exactly when no supporting module is listed or in flight
      between counting and listing itself. */
  lemma AllGone(s: System)
    requires Inv(s) && s.holder.Checking?
    ensures s.supported == 0 <==>
              forall m :: m in s.mods && s.mods[m].supports ==> !InPhase(s, m, Listed) && !InPhase(s, m, Counted)
  {
    SupportedCount(s);
    if s.supported == 0 {
      assert InPhaseSupporting(s, Listed) == {} && InPhaseSupporting(s, Counted) == {};
      forall m | m in s.mods && s.mods[m].supports
        ensures !InPhase(s, m, Listed) && !InPhase(s, m, Counted)
      {
        assert m !in InPhaseSupporting(s, Listed) && m !in InPhaseSupporting(s, Counted);
      }
    } else {
      assert InPhaseSupporting(s, Listed) != {} || InPhaseSupporting(s, Counted) != {};
    }
  }

  /** A starter that has not incremented the counter yet is not seen: the answer can be true while
      a supporting module is starting. */
  lemma StarterNotSeen(s: System, m: nat, id: nat) returns (t: System)
    requires Inv(s) && s.holder.Checking? && s.supported == 0 && m !in s.mods
    ensures t == Apply(Apply(s, Begin(m, id, true)), IncActive(m))
    ensures Inv(t) && InPhase(t, m, Activated) && t.mods[m].supports
    ensures Apply(t, Check).util.timer == Scheduled(ACKED_REBOOT_TIMEOUT)
  {
    StepKeeps(s, Begin(m, id, true));
    t := Apply(Apply(s, Begin(m, id, true)), IncActive(m));
    StepKeeps(Apply(s, Begin(m, id, true)), IncActive(m));
  }

  // ----- Runs -----

  ghost predicate Runs(s: System, ops: seq<Op>)
    decreases |ops|
  {
    ops == [] || (Enabled(s, ops[0]) && Runs(Apply(s, ops[0]), ops[1..]))
  }

  ghost function Run(s: System, ops: seq<Op>): System
    requires Runs(s, ops)
    decreases |ops|
  {
    if ops == [] then s else Run(Apply(s, ops[0]), ops[1..])
  }

  /** At some check of the run no supporting module was listed or in flight. */
  ghost predicate AllGoneAtACheck(s: System, ops: seq<Op>)
    requires Runs(s, ops)
    decreases |ops|
  {
    && ops != []
    && (|| (ops[0].Check?
            && forall m :: m in s.mods && s.mods[m].supports ==> !InPhase(s, m, Listed) && !InPhase(s, m, Counted))
        || AllGoneAtACheck(Apply(s, ops[0]), ops[1..]))
  }

  lemma {:induction false} RunKeeps(s: System, ops: seq<Op>)
    requires Inv(s) && Runs(s, ops)
    ensures Inv(Run(s, ops))
    ensures Run(s, ops).util.timer == Scheduled(ACKED_REBOOT_TIMEOUT) ==>
              s.util.timer == Scheduled(ACKED_REBOOT_TIMEOUT) || AllGoneAtACheck(s, ops)
    decreases |ops|
  {
    if ops != [] {
      StepKeeps(s, ops[0]);
      if s.util.timer != Scheduled(ACKED_REBOOT_TIMEOUT) {
        TimerStep(s, ops[0]);
      }
      if ops[0].Check? {
        AllGone(s);
      }
      hide Inv, Apply;
      RunKeeps(Apply(s, ops[0]), ops[1..]);
    }
  }

  lemma TimerStep(s: System, op: Op)
    requires Enabled(s, op) && s.util.timer != Scheduled(ACKED_REBOOT_TIMEOUT)
    ensures Apply(s, op).util.timer == Scheduled(ACKED_REBOOT_TIMEOUT) ==> op.Check? && s.supported == 0
  {
  }

  const POWER_UP := System(map[], [], 0, 0, Free, Util(STATE_INIT, false, Unscheduled, 0))

  /** In every interleaving in which a request is one step (callers of send_reboot_request that
      overlap are the subject of OneRequestIffOrderly): at most one shutdown request is emitted, and
      the early reboot is scheduled only after a check at which no supporting module was listed or in
      flight. */
  lemma ShutdownIsSafe(ops: seq<Op>)
    requires Runs(POWER_UP, ops)
    ensures var t := Run(POWER_UP, ops);
            && t.util.requests <= 1
            && (t.util.requests == 1 <==> !t.util.timer.Unscheduled?)
            && (t.util.timer == Scheduled(5) ==> AllGoneAtACheck(POWER_UP, ops))
            && t.supported >= 0
  {
    assert ActiveOnes(POWER_UP) == {} && SupportingOnes(POWER_UP) == {};
    RunKeeps(POWER_UP, ops);
  }

  /** A registration that nothing comes between does what `ModulesInfo.ShutdownRegister` does: the
      first supporting module with the id leaves list and counters, and the early reboot is
      scheduled exactly when the counter is then zero. */
  lemma UndisturbedRegistration(s: System, id: nat) returns (t: System)
    requires Inv(s) && s.holder.Free? && s.util.state == STATE_REBOOT_PENDING && id != 0
    requires Search(s, id, 0) < |s.list| && s.list[Search(s, id, 0)] in s.mods
    requires s.mods[s.list[Search(s, id, 0)]].supports
    ensures Runs(s, [Ack(id), Unlink, DecActive, DecSupported, Check])
    ensures Run(s, [Ack(id), Unlink, DecActive, DecSupported, Check]) == t
    ensures var m := s.list[Search(s, id, 0)];
            && m in s.list && t.list == Without(s.list, m) && t.holder.Free?
            && t.mods == s.mods[m := s.mods[m].(phase := Gone)]
            && t.active == s.active - 1 && t.supported == s.supported - 1
            && t.util == if t.supported == 0 then s.util.(timer := Scheduled(5)) else s.util
  {
    var m := s.list[Search(s, id, 0)];
    assert m in s.list && InPhase(s, m, Listed);
    hide Inv;
    var s1 := Apply(s, Ack(id));
    assert s1 == s.(holder := Removing(m));
    hide Apply, Search;
    t := FinishRemoval(s1, m);
    RunOne(s, Ack(id), [Unlink, DecActive, DecSupported, Check]);
    hide *;
    assert [Ack(id)] + [Unlink, DecActive, DecSupported, Check] == [Ack(id), Unlink, DecActive, DecSupported, Check];
  }

  /** The four states in between. */
  lemma RemovalSteps(s: System, m: nat) returns (s2: System, s3: System, s4: System, t: System)
    requires s.holder == Removing(m) && RemovingIn(s, Listed) && m in s.list
    ensures Enabled(s, Unlink) && s2 == Apply(s, Unlink) && Enabled(s2, DecActive) && s3 == Apply(s2, DecActive)
    ensures Enabled(s3, DecSupported) && s4 == Apply(s3, DecSupported) && Enabled(s4, Check) && t == Apply(s4, Check)
    ensures s4 == s.(mods := s.mods[m := s.mods[m].(phase := Gone)], list := Without(s.list, m), active := s.active - 1,
                     supported := s.supported - 1, holder := Checking)
  {
    hide Without, Search;
    s2 := Apply(s, Unlink);
    s3 := Apply(s2, DecActive);
    s4 := Apply(s3, DecSupported);
    t := Apply(s4, Check);
  }

  lemma CheckIs(s: System)
    requires s.holder.Checking?
    ensures Enabled(s, Check)
    ensures Apply(s, Check) == s.(holder := Free, util := if s.supported == 0 then s.util.(timer := Scheduled(5)) else s.util)
  {
  }

  lemma FinishRemoval(s: System, m: nat) returns (t: System)
    requires s.holder == Removing(m) && RemovingIn(s, Listed) && m in s.list
    ensures Runs(s, [Unlink, DecActive, DecSupported, Check])
    ensures Run(s, [Unlink, DecActive, DecSupported, Check]) == t
    ensures && t.list == Without(s.list, m) && t.holder.Free?
            && t.mods == s.mods[m := s.mods[m].(phase := Gone)]
            && t.active == s.active - 1 && t.supported == s.supported - 1
            && t.util == if t.supported == 0 then s.util.(timer := Scheduled(5)) else s.util
  {
    var s2, s3, s4;
    s2, s3, s4, t := RemovalSteps(s, m);
    CheckIs(s4);
    hide Apply, Enabled, Without, RemovingIn;
    RunOne(s4, Check, []);
    RunOne(s3, DecSupported, [Check]);
    RunOne(s2, DecActive, [DecSupported, Check]);
    RunOne(s, Unlink, [DecActive, DecSupported, Check]);
  }

  lemma RunOne(s: System, op: Op, ops: seq<Op>)
    requires Enabled(s, op) && Runs(Apply(s, op), ops)
    ensures Runs(s, [op] + ops) && Run(s, [op] + ops) == Run(Apply(s, op), ops)
  {
    hide Apply, Enabled;
    assert ([op] + ops)[1..] == ops;
  }

  // ----- The step system does what the class does -----

  /** The list as the class sees it. */
  function ModulesOf(s: System): (r: seq<Module>)
    requires forall k :: 0 <= k < |s.list| ==> s.list[k] in s.mods
    ensures |r| == |s.list|
    ensures forall k :: 0 <= k < |r| ==> r[k] == Module(s.mods[s.list[k]].id, s.mods[s.list[k]].supports)
  {
    seq(|s.list|, k requires 0 <= k < |s.list| => Module(s.mods[s.list[k]].id, s.mods[s.list[k]].supports))
  }

  lemma ListedAreKnown(s: System)
    requires Inv(s)
    ensures forall k :: 0 <= k < |s.list| ==> s.list[k] in s.mods && s.mods[s.list[k]].phase == Listed
  {
    forall k | 0 <= k < |s.list|
      ensures s.list[k] in s.mods && s.mods[s.list[k]].phase == Listed
    {
      assert s.list[k] in s.list;
      assert InPhase(s, s.list[k], Listed);
    }
  }

  lemma {:induction false} SameSearch(s: System, id: nat, i: nat)
    requires i <= |s.list| && forall k :: 0 <= k < |s.list| ==> s.list[k] in s.mods
    ensures Search(s, id, i) == FirstWith(ModulesOf(s), id, i)
    decreases |s.list| - i
  {
    if i < |s.list| && s.mods[s.list[i]].id != id {
      SameSearch(s, id, i + 1);
    }
  }

  /** The steps of one registration when nothing comes between. */
  function Registration(s: System, id: nat): seq<Op> {
    var k := Search(s, id, 0);
    if id == 0 then [Ack(id)]
    else if k == |s.list| then [Ack(id), Check]
    else if s.list[k] in s.mods && s.mods[s.list[k]].supports then [Ack(id), Unlink, DecActive, DecSupported, Check]
    else [Ack(id)]
  }

  /** No module stands between counting and listing itself. */
  ghost predicate NoneInFlight(s: System) {
    forall m :: m in s.mods ==> s.mods[m].phase != Counted
  }

  lemma {:induction false} IndexIs(list: seq<nat>, k: nat)
    requires k < |list| && Distinct(list)
    ensures IndexOf(list, list[k]) == k
    decreases |list|
  {
    if k > 0 {
      IndexIs(list[1..], k - 1);
    }
  }

  lemma IsDistinct(s: System)
    requires Inv(s)
    ensures Distinct(s.list)
  {
  }

  /** Without the k-th module. */
  lemma ListWithout(s: System, t: System, k: nat)
    requires Inv(s) && k < |s.list| && s.list[k] in s.mods
    requires t.list == Without(s.list, s.list[k])
    requires t.mods == s.mods[s.list[k] := s.mods[s.list[k]].(phase := Gone)]
    ensures forall j :: 0 <= j < |s.list| ==> s.list[j] in s.mods
    ensures forall j :: 0 <= j < |t.list| ==> t.list[j] in t.mods
    ensures ModulesOf(t) == ModulesOf(s)[..k] + ModulesOf(s)[k + 1..]
  {
    ListedAreKnown(s);
    IsDistinct(s);
    IndexIs(s.list, k);
    hide Inv, Distinct, IndexOf;
    assert t.list == s.list[..k] + s.list[k + 1..];
  }

  /** A free system without modules in flight counts the supporting modules of its list. */
  lemma NoneSupporting(s: System)
    requires Inv(s) && NoneInFlight(s) && s.holder.Free?
    ensures forall k :: 0 <= k < |s.list| ==> s.list[k] in s.mods
    ensures s.supported == 0 <==> forall k :: 0 <= k < |ModulesOf(s)| ==> !ModulesOf(s)[k].supportsShutdown
  {
    SupportedCount(s);
    ListedAreKnown(s);
    assert InPhaseSupporting(s, Counted) == {};
    if s.supported != 0 {
      var m :| m in InPhaseSupporting(s, Listed);
      assert InPhase(s, m, Listed);
      assert m in s.list by {
        ListedIsIn(s, m);
      }
      hide Inv;
      var k :| 0 <= k < |s.list| && s.list[k] == m;
      assert ModulesOf(s)[k].supportsShutdown;
    } else {
      hide Inv;
      assert InPhaseSupporting(s, Listed) == {};
      forall k | 0 <= k < |s.list|
        ensures !ModulesOf(s)[k].supportsShutdown
      {
        assert s.list[k] !in InPhaseSupporting(s, Listed);
      }
    }
  }

  lemma ListedIsIn(s: System, m: nat)
    requires Inv(s) && InPhase(s, m, Listed)
    ensures m in s.list
  {
  }

  /** A registration that nothing comes between, in a system with no module in flight, is the class's:
      the list becomes `Registered`, and the early reboot is scheduled exactly when it answers true. */
  lemma RegistrationRefines(s: System, id: nat) returns (t: System)
    requires Inv(s) && NoneInFlight(s) && s.holder.Free? && s.util.state == STATE_REBOOT_PENDING
    ensures Runs(s, Registration(s, id)) && Run(s, Registration(s, id)) == t
    ensures Inv(t) && t.holder.Free?
    ensures forall k :: 0 <= k < |s.list| ==> s.list[k] in s.mods
    ensures forall k :: 0 <= k < |t.list| ==> t.list[k] in t.mods
    ensures ModulesOf(t) == Registered(ModulesOf(s), id)
    ensures t.util == if LastToRegister(ModulesOf(s), id) then s.util.(timer := Scheduled(5)) else s.util
  {
    ListedAreKnown(s);
    SameSearch(s, id, 0);
    var k := Search(s, id, 0);
    if id == 0 || (k < |s.list| && !s.mods[s.list[k]].supports) {
      t := Unanswered(s, id, k);
    } else if k == |s.list| {
      t := UnknownId(s, id);
      NoneSupporting(s);
      hide Inv, NoneInFlight, Run, Runs;
      assert ModulesOf(t) == ModulesOf(s);
    } else {
      t := Known(s, id, k);
      NoneSupporting(t);
      hide Inv, NoneInFlight, Run, Runs;
    }
  }

  lemma Unanswered(s: System, id: nat, k: nat) returns (t: System)
    requires Enabled(s, Ack(id)) && k == Search(s, id, 0) && Inv(s)
    requires id == 0 || (k < |s.list| && s.list[k] in s.mods && !s.mods[s.list[k]].supports)
    ensures t == s && Runs(s, Registration(s, id)) && Run(s, Registration(s, id)) == s
  {
    t := s;
    hide Inv;
    RunOne(s, Ack(id), []);
  }

  lemma UnknownId(s: System, id: nat) returns (t: System)
    requires Enabled(s, Ack(id)) && id != 0 && Search(s, id, 0) == |s.list| && Inv(s)
    ensures t == s.(util := if s.supported == 0 then s.util.(timer := Scheduled(5)) else s.util)
    ensures Runs(s, Registration(s, id)) && Run(s, Registration(s, id)) == t && Inv(t)
  {
    var s1 := Apply(s, Ack(id));
    assert s1 == s.(holder := Checking) && s.holder.Free?;
    CheckIs(s1);
    t := Apply(s1, Check);
    assert [Ack(id)] + [Check] == Registration(s, id);
    hide Inv, Apply, Enabled;
    RunOne(s1, Check, []);
    RunOne(s, Ack(id), [Check]);
    RunKeeps(s, Registration(s, id));
  }

  lemma Known(s: System, id: nat, k: nat) returns (t: System)
    requires Inv(s) && NoneInFlight(s) && s.holder.Free? && s.util.state == STATE_REBOOT_PENDING && id != 0
    requires k == Search(s, id, 0) < |s.list| && s.list[k] in s.mods && s.mods[s.list[k]].supports
    ensures Runs(s, Registration(s, id)) && Run(s, Registration(s, id)) == t && Inv(t)
    ensures NoneInFlight(t) && t.holder.Free?
    ensures t.util == if t.supported == 0 then s.util.(timer := Scheduled(5)) else s.util
    ensures forall j :: 0 <= j < |s.list| ==> s.list[j] in s.mods
    ensures forall j :: 0 <= j < |t.list| ==> t.list[j] in t.mods
    ensures ModulesOf(t) == ModulesOf(s)[..k] + ModulesOf(s)[k + 1..]
  {
    t := UndisturbedRegistration(s, id);
    RunKeeps(s, Registration(s, id));
    hide Inv, Run, Runs, Search, Without;
    ListWithout(s, t, k);
  }

  // ----- A start after the request -----

  /** Once APP_EVT_START has been handled after the request (a watchdog error requests a reboot
      before it), acknowledgements are ignored for good and only the long timeout is left. */
  lemma {:induction false} StartLosesAcks(s: System, ops: seq<Op>)
    requires Runs(s, ops) && s.util.errorSignaled && s.util.state == STATE_INIT && s.holder.Free?
    ensures Run(s, ops).util == s.util
    decreases |ops|
  {
    if ops != [] {
      var t := Apply(s, ops[0]);
      assert t.util == s.util && t.holder.Free?;
      StartLosesAcks(t, ops[1..]);
    }
  }

  /** The start event is handled with a reboot requested, before it or by it. */
  predicate StartMeets(s: System, op: Op)
    requires Enabled(s, op)
  {
    op.Event? && op.message.AppStart? && Apply(s, op).util.errorSignaled
  }

  ghost predicate StartMet(s: System, ops: seq<Op>)
    requires Runs(s, ops)
    decreases |ops|
  {
    ops != [] && (StartMeets(s, ops[0]) || StartMet(Apply(s, ops[0]), ops[1..]))
  }

  lemma StartStep(s: System, op: Op)
    requires Enabled(s, op) && (s.util.state == STATE_REBOOT_PENDING ==> s.util.errorSignaled)
    ensures var t := Apply(s, op);
            && (t.util.state == STATE_REBOOT_PENDING ==> t.util.errorSignaled)
            && (s.util.errorSignaled ==> t.util.errorSignaled)
            && (t.util.errorSignaled ==>
                  (t.util.state == STATE_REBOOT_PENDING <==>
                     !StartMeets(s, op) && (s.util.errorSignaled ==> s.util.state == STATE_REBOOT_PENDING)))
  {
    hide Without, Search;
  }

  lemma {:induction false} StartDecides(s: System, ops: seq<Op>)
    requires Runs(s, ops) && (s.util.state == STATE_REBOOT_PENDING ==> s.util.errorSignaled)
    ensures var t := Run(s, ops);
            && (s.util.errorSignaled ==> t.util.errorSignaled)
            && (t.util.errorSignaled ==>
                  (t.util.state == STATE_REBOOT_PENDING <==>
                     !StartMet(s, ops) && (s.util.errorSignaled ==> s.util.state == STATE_REBOOT_PENDING)))
    decreases |ops|
  {
    if ops != [] {
      StartStep(s, ops[0]);
      hide Apply, Enabled, StartMeets;
      StartDecides(Apply(s, ops[0]), ops[1..]);
    }
  }

  /** After any run in which a reboot has been requested, acknowledgements count if and only if no
      start event was handled with the request or after it. */
  lemma AcksCountIff(ops: seq<Op>)
    requires Runs(POWER_UP, ops) && Run(POWER_UP, ops).util.errorSignaled
    ensures Run(POWER_UP, ops).util.state == STATE_REBOOT_PENDING <==> !StartMet(POWER_UP, ops)
  {
    StartDecides(POWER_UP, ops);
    hide StartMet, Run, Runs;
  }

  /** A run from power-up in which a starter is not seen: a reboot is requested, an unknown module
      acknowledges, and while the counter is checked a supporting module is starting. */
  lemma StarterNotSeenHappens(m: nat, id: nat, other: nat) returns (ops: seq<Op>)
    requires other != 0
    ensures ops == [Event(ErrorOrRebootRequest, false), Ack(other), Begin(m, id, true), IncActive(m), Check]
    ensures Runs(POWER_UP, ops)
    ensures var t := Run(POWER_UP, ops);
            && t.util.timer == Scheduled(5)
            && InPhase(t, m, Activated) && t.mods[m].supports
  {
    var s1, s2, s3, s4 := UnseenSteps(m, id, other);
    hide Apply, Enabled, InPhase;
    RunOne(s4, Check, []);
    RunOne(s3, IncActive(m), [Check]);
    RunOne(s2, Begin(m, id, true), [IncActive(m), Check]);
    RunOne(s1, Ack(other), [Begin(m, id, true), IncActive(m), Check]);
    RunOne(POWER_UP, Event(ErrorOrRebootRequest, false), [Ack(other), Begin(m, id, true), IncActive(m), Check]);
    ops := [Event(ErrorOrRebootRequest, false)] + [Ack(other), Begin(m, id, true), IncActive(m), Check];
  }

  lemma UnseenSteps(m: nat, id: nat, other: nat) returns (s1: System, s2: System, s3: System, s4: System)
    requires other != 0
    ensures Enabled(POWER_UP, Event(ErrorOrRebootRequest, false))
    ensures s1 == Apply(POWER_UP, Event(ErrorOrRebootRequest, false)) && Enabled(s1, Ack(other))
    ensures s2 == Apply(s1, Ack(other)) && Enabled(s2, Begin(m, id, true))
    ensures s3 == Apply(s2, Begin(m, id, true)) && Enabled(s3, IncActive(m))
    ensures s4 == Apply(s3, IncActive(m)) && Enabled(s4, Check)
    ensures var t := Apply(s4, Check); t.util.timer == Scheduled(5) && InPhase(t, m, Activated) && t.mods[m].supports
  {
    s1 := Apply(POWER_UP, Event(ErrorOrRebootRequest, false));
    s2 := Apply(s1, Ack(other));
    s3 := Apply(s2, Begin(m, id, true));
    s4 := Apply(s3, IncActive(m));
    assert s2.holder.Checking? && s2.supported == 0 && s2.mods == map[];
  }

  // ----- Two callers of send_reboot_request -----

  /** bsd_recoverable_error_handler may run in another thread.  A caller first tests the flag,
      then emits the request, then sets the flag. */
  datatype Caller = Idle | Passed | Emitted | Returned

  datatype Race = Race(callers: map<nat, Caller>, flag: bool, requests: nat)

  predicate CanMove(r: Race, c: nat) {
    c in r.callers && !r.callers[c].Returned?
  }

  function Move(r: Race, c: nat): Race
    requires CanMove(r, c)
  {
    match r.callers[c]
    case Idle => r.(callers := r.callers[c := if r.flag then Returned else Passed])
    case Passed => r.(callers := r.callers[c := Emitted], requests := r.requests + 1)
    case Emitted => r.(callers := r.callers[c := Returned], flag := true)
    case Returned => r
  }

  predicate Inside(r: Race, c: nat) {
    c in r.callers && (r.callers[c].Passed? || r.callers[c].Emitted?)
  }

  /** At most one caller is past the test, and then nothing has been emitted before it. */
  ghost predicate OneRequest(r: Race) {
    && (forall c, d :: Inside(r, c) && Inside(r, d) ==> c == d)
    && r.requests <= 1
    && (r.flag ==> forall c :: !Inside(r, c))
    && (forall c :: c in r.callers && r.callers[c].Passed? ==> r.requests == 0)
    && (r.requests == 1 && !r.flag ==> exists c :: Inside(r, c))
  }

  /** At most one request survives a step exactly when no caller tests the flag while another is
      between its test and setting the flag. */
  lemma RaceStep(r: Race, c: nat)
    requires OneRequest(r) && CanMove(r, c)
    ensures OneRequest(Move(r, c)) <==> (r.callers[c].Idle? && !r.flag ==> forall d :: !Inside(r, d))
  {
    var t := Move(r, c);
    assert forall d :: d != c ==> (Inside(t, d) <==> Inside(r, d));
    match r.callers[c] {
      case Idle =>
        assert !Inside(r, c);
        if !r.flag {
          assert Inside(t, c);
          if d :| Inside(r, d) {
            assert Inside(t, d);
          }
        } else {
          assert forall d :: Inside(t, d) <==> Inside(r, d);
        }
      case Passed =>
        assert Inside(r, c) && Inside(t, c);
        assert forall d :: Inside(t, d) ==> d == c;
        assert forall d :: d in t.callers && t.callers[d].Passed? ==> Inside(t, d);
      case Emitted =>
        assert Inside(r, c) && !Inside(t, c);
        assert forall d :: !Inside(t, d);
        assert forall d :: d in t.callers && t.callers[d].Passed? ==> Inside(t, d);
    }
  }

  predicate CanMoves(r: Race, cs: seq<nat>)
    decreases |cs|
  {
    cs == [] || (CanMove(r, cs[0]) && CanMoves(Move(r, cs[0]), cs[1..]))
  }

  function Moves(r: Race, cs: seq<nat>): Race
    requires CanMoves(r, cs)
    decreases |cs|
  {
    if cs == [] then r else Moves(Move(r, cs[0]), cs[1..])
  }

  /** `c` passes the test while somebody else is between it and setting the flag. */
  ghost predicate Overtakes(r: Race, c: nat)
    requires CanMove(r, c)
  {
    r.callers[c].Idle? && !r.flag && exists d :: Inside(r, d)
  }

  ghost predicate Orderly(r: Race, cs: seq<nat>)
    requires CanMoves(r, cs)
    decreases |cs|
  {
    cs == [] || (!Overtakes(r, cs[0]) && Orderly(Move(r, cs[0]), cs[1..]))
  }

  function AllIdle(callers: set<nat>): Race {
    Race(map c | c in callers :: Idle, false, 0)
  }

  lemma {:induction false} OrderlyKeepsOne(r: Race, cs: seq<nat>)
    requires CanMoves(r, cs) && Orderly(r, cs) && OneRequest(r)
    ensures OneRequest(Moves(r, cs))
    decreases |cs|
  {
    if cs != [] {
      RaceStep(r, cs[0]);
      hide OneRequest, Move;
      OrderlyKeepsOne(Move(r, cs[0]), cs[1..]);
    }
  }

  // The requests emitted, and those that callers past the test are going to emit.

  ghost function Waiting(r: Race): set<nat> {
    set c | c in r.callers && r.callers[c].Passed?
  }

  ghost function Promised(r: Race): nat {
    r.requests + |Waiting(r)|
  }

  ghost predicate EmittedCounts(r: Race) {
    forall c :: c in r.callers && r.callers[c].Emitted? ==> r.requests >= 1
  }

  lemma WaitingStep(r: Race, c: nat)
    requires CanMove(r, c)
    ensures var t := Move(r, c);
            match r.callers[c]
            case Idle => c !in Waiting(r) && Waiting(t) == (if r.flag then Waiting(r) else Waiting(r) + {c})
            case Passed => c in Waiting(r) && Waiting(t) == Waiting(r) - {c}
            case _ => Waiting(t) == Waiting(r)
  {
  }

  lemma PromisedStep(r: Race, c: nat)
    requires CanMove(r, c)
    ensures Promised(Move(r, c)) == Promised(r) + if r.callers[c].Idle? && !r.flag then 1 else 0
  {
    WaitingStep(r, c);
    hide Waiting;
  }

  lemma EmittedStep(r: Race, c: nat)
    requires CanMove(r, c) && EmittedCounts(r)
    ensures EmittedCounts(Move(r, c))
  {
  }

  lemma InsidePromises(r: Race, d: nat)
    requires EmittedCounts(r) && Inside(r, d)
    ensures Promised(r) >= 1
  {
    if r.callers[d].Passed? {
      assert d in Waiting(r);
    }
  }

  /** Promises are never taken back, and a run in which one caller overtakes another makes two. */
  lemma {:induction false} OvertakingPromisesTwo(r: Race, cs: seq<nat>)
    requires CanMoves(r, cs) && EmittedCounts(r)
    ensures Promised(Moves(r, cs)) >= Promised(r)
    ensures !Orderly(r, cs) ==> Promised(Moves(r, cs)) >= 2
    decreases |cs|
  {
    if cs != [] {
      PromisedStep(r, cs[0]);
      EmittedStep(r, cs[0]);
      if d :| Inside(r, d) {
        InsidePromises(r, d);
      }
      hide EmittedCounts, Promised, Move;
      OvertakingPromisesTwo(Move(r, cs[0]), cs[1..]);
    }
  }

  /** Any number of callers, in any order: at most one request is emitted if and only if nobody
      passes the test while another is between it and setting the flag.  (In one direction the
      callers past the test must have got to emit.) */
  lemma OneRequestIffOrderly(callers: set<nat>, cs: seq<nat>)
    requires CanMoves(AllIdle(callers), cs)
    ensures var r, t := AllIdle(callers), Moves(AllIdle(callers), cs);
            && (Orderly(r, cs) ==> t.requests <= 1)
            && ((forall c :: c in t.callers ==> !t.callers[c].Passed?) ==>
                  (t.requests <= 1 <==> Orderly(r, cs)))
  {
    var r := AllIdle(callers);
    var t := Moves(r, cs);
    OvertakingPromisesTwo(r, cs);
    if Orderly(r, cs) {
      OrderlyKeepsOne(r, cs);
    }
    if forall c :: c in t.callers ==> !t.callers[c].Passed? {
      assert Waiting(t) == {};
    }
    hide CanMoves, Moves, Orderly;
  }

  /** Two threads that both test the flag before either sets it emit two requests. */
  lemma TwoRequests(c: nat, d: nat)
    requires c != d
    ensures CanMoves(AllIdle({c, d}), [c, d, c, d, c, d])
    ensures Moves(AllIdle({c, d}), [c, d, c, d, c, d]).requests == 2
  {
    var r0 := AllIdle({c, d});
    var r2 := Move(Move(r0, c), d);
    var r4 := Move(Move(r2, c), d);
    var r6 := Move(Move(r4, c), d);
    assert r2.callers == map[c := Passed, d := Passed];
    assert r4.callers == map[c := Emitted, d := Emitted] && r4.requests == 2;
    assert r6.requests == 2;
    hide Move, AllIdle;
    MovesTwo(r4, c, d, []);
    assert [c, d] + [] == [c, d] && [c, d] + [c, d] == [c, d, c, d] && [c, d] + [c, d, c, d] == [c, d, c, d, c, d];
    MovesTwo(r2, c, d, [c, d]);
    MovesTwo(r0, c, d, [c, d, c, d]);
  }

  lemma MovesTwo(r: Race, c: nat, d: nat, cs: seq<nat>)
    requires CanMove(r, c) && CanMove(Move(r, c), d) && CanMoves(Move(Move(r, c), d), cs)
    ensures CanMoves(r, [c, d] + cs) && Moves(r, [c, d] + cs) == Moves(Move(Move(r, c), d), cs)
  {
    hide Move;
    assert ([c, d] + cs)[1..] == [d] + cs && ([d] + cs)[1..] == cs;
  }
}
