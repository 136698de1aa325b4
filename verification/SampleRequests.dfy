/** Requesting samples and collecting the reports: the application asks for a list of data types
    (asset_tracker_v2/src/main.c), the data module counts the reports and announces the data when
    all have come in or time is up (asset_tracker_v2/src/modules/data_module.c). */
module SampleRequests {

  datatype DataType = ENVIRONMENTAL | MOVEMENT | MODEM_STATIC | MODEM_DYNAMIC | BATTERY | LOCATION

  const APP_DATA_COUNT: nat := 6
  const DATA_FETCH_TIMEOUT_DEFAULT: int := 2

  ghost predicate Distinct(list: seq<DataType>) {
    forall i, j :: 0 <= i < j < |list| ==> list[i] != list[j]
  }

  predicate ValidLength(count: nat) {
    0 < count <= APP_DATA_COUNT
  }

  // ----- The application asks -----

  function Min(a: int, b: int): int {
    if a < b then a else b
  }

  function Max(a: int, b: int): int {
    if a > b then a else b
  }

  /** `located`: some way of locating the collar is enabled; `interval` is the one of the current
      mode, active or passive. */
  function AskedFor(modemStaticSampled: bool, located: bool): (list: seq<DataType>)
    ensures |list| == 3 + (if modemStaticSampled then 0 else 1) + if located then 1 else 0
    ensures list[0] == MODEM_DYNAMIC && list[1] == BATTERY && list[2] == ENVIRONMENTAL
    ensures !modemStaticSampled ==> list[3] == MODEM_STATIC
    ensures located ==> list[|list| - 1] == LOCATION
  {
    [MODEM_DYNAMIC, BATTERY, ENVIRONMENTAL] + (if modemStaticSampled then [] else [MODEM_STATIC])
    + if located then [LOCATION] else []
  }

  /** The list never asks for a type twice and fits the data module's array. */
  lemma AskedForIsDistinct(modemStaticSampled: bool, located: bool)
    ensures Distinct(AskedFor(modemStaticSampled, located))
    ensures MOVEMENT !in AskedFor(modemStaticSampled, located)
    ensures MODEM_STATIC in AskedFor(modemStaticSampled, located) <==> !modemStaticSampled
    ensures LOCATION in AskedFor(modemStaticSampled, located) <==> located
    ensures ValidLength(|AskedFor(modemStaticSampled, located)|)
  {
  }

  method DataGet(modemStaticSampled: bool, located: bool, interval: int) returns (list: seq<DataType>, timeout: int)
    ensures list == AskedFor(modemStaticSampled, located)
    ensures !located ==> timeout == 2
    ensures located ==> timeout == (if interval < 10 then 5 else if interval > 115 then 110 else interval - 5)
  {
    var dataList := new DataType[APP_DATA_COUNT](i => ENVIRONMENTAL);
    var count := 0;
    timeout := DATA_FETCH_TIMEOUT_DEFAULT;
    dataList[count] := MODEM_DYNAMIC;
    count := count + 1;
    dataList[count] := BATTERY;
    count := count + 1;
    dataList[count] := ENVIRONMENTAL;
    count := count + 1;
    if !modemStaticSampled {
      dataList[count] := MODEM_STATIC;
      count := count + 1;
    }
    if located {
      dataList[count] := LOCATION;
      count := count + 1;
      timeout := Min(interval - 5, 110);
      timeout := Max(timeout, 5);
    }
    list := dataList[..count];
  }

  // ----- The data module collects -----

  /** `list` is what is being waited for (empty between requests), `counted` the reports counted,
      `pending` whether the send timer runs, `sent` how often DATA_READY has been sent. */
  datatype Requests = Requests(list: seq<DataType>, counted: nat, pending: bool, sent: nat)

  function Sent(r: Requests): Requests {
    Requests([], 0, false, r.sent + 1)
  }

  /** What a report does once the timer has been found running. */
  function Counted(r: Requests, t: DataType): Requests {
    var c := r.(counted := r.counted + if t in r.list then 1 else 0);
    if c.counted == |c.list| then Sent(c) else c
  }

  function Reported(r: Requests, t: DataType): Requests {
    if !r.pending then (if t == LOCATION then Sent(r) else r) else Counted(r, t)
  }

  function Requested(r: Requests, list: seq<DataType>): Requests {
    (if ValidLength(|list|) then r.(list := list, counted := 0) else r).(pending := true)
  }

  /** Outside a request only a location is announced at once, and nothing else happens; within one a
      report counts if its type was asked for, and what is counted last announces the data. */
  lemma ReportsMean(r: Requests, t: DataType)
    ensures !r.pending ==> Reported(r, t) == if t == LOCATION then Requests([], 0, false, r.sent + 1) else r
    ensures r.pending ==>
              var counted := if t in r.list then r.counted + 1 else r.counted;
              Reported(r, t) == if counted == |r.list| then Requests([], 0, false, r.sent + 1)
                                else Requests(r.list, counted, true, r.sent)
  {
  }

  /** A list of one to six types replaces the old one; any other leaves it, but starts the timer. */
  lemma ListsMean(r: Requests, list: seq<DataType>)
    ensures Requested(r, list) == if 1 <= |list| <= 6 then Requests(list, 0, true, r.sent)
                                  else Requests(r.list, r.counted, true, r.sent)
  {
  }

  class DataModule {
    const reqTypeList: array<DataType>
    var recvReqDataCount: nat
    var reqDataCount: nat
    var pending: bool
    var sent: nat

    ghost predicate Valid()
      reads this
    {
      reqTypeList.Length == APP_DATA_COUNT && recvReqDataCount <= APP_DATA_COUNT
    }

    function View(): Requests
      requires recvReqDataCount <= reqTypeList.Length
      reads this, reqTypeList
    {
      Requests(reqTypeList[..recvReqDataCount], reqDataCount, pending, sent)
    }

    constructor ()
      ensures Valid() && fresh(reqTypeList) && View() == Requests([], 0, false, 0)
    {
      reqTypeList := new DataType[APP_DATA_COUNT](i => ENVIRONMENTAL);
      recvReqDataCount, reqDataCount, pending, sent := 0, 0, false, 0;
    }

    method RequestedDataClear()
      modifies this`recvReqDataCount, this`reqDataCount
      ensures recvReqDataCount == 0 && reqDataCount == 0
    {
      recvReqDataCount := 0;
      reqDataCount := 0;
    }

    /** The timer's handler; also called when everything has been reported. */
    method DataSendWorkFn()
      requires Valid()
      modifies this
      ensures Valid() && View() == Sent(old(View()))
    {
      sent := sent + 1;
      RequestedDataClear();
      pending := false;
    }

    method RequestedDataStatusSet(dataType: DataType)
      requires Valid()
      modifies this
      ensures Valid() && View() == Reported(old(View()), dataType)
    {
      if !pending {
        if dataType == LOCATION {
          DataSendWorkFn();
        }
        return;
      }
      ghost var list := reqTypeList[..recvReqDataCount];
      var i := 0;
      while i < recvReqDataCount
        invariant 0 <= i <= recvReqDataCount
        invariant dataType !in list[..i] && reqDataCount == old(reqDataCount)
      {
        if reqTypeList[i] == dataType {
          assert list[i] == dataType;
          reqDataCount := reqDataCount + 1;
          break;
        }
        i := i + 1;
      }
      if reqDataCount == recvReqDataCount {
        DataSendWorkFn();
      }
    }

    method RequestedDataListSet(dataList: seq<DataType>)
      requires Valid()
      modifies this`recvReqDataCount, this`reqDataCount, reqTypeList
      ensures Valid() && View() ==
                if ValidLength(|dataList|) then old(View()).(list := dataList, counted := 0) else old(View())
    {
      if |dataList| == 0 || |dataList| > APP_DATA_COUNT {
        return;
      }
      RequestedDataClear();
      for i := 0 to |dataList|
        invariant reqTypeList[..i] == dataList[..i] && reqDataCount == 0
      {
        reqTypeList[i] := dataList[i];
      }
      recvReqDataCount := |dataList|;
      assert dataList[..|dataList|] == dataList;
    }

    /** APP_EVT_DATA_GET: the timer is started even when the list is refused. */
    method OnDataGet(dataList: seq<DataType>)
      requires Valid()
      modifies this, reqTypeList
      ensures Valid() && View() == Requested(old(View()), dataList)
    {
      RequestedDataListSet(dataList);
      pending := true;
    }
  }

  // ----- The counter refines a set of outstanding types -----

  /** `reports` are the reports of this cycle that were asked for. */
  datatype Cycle = Cycle(r: Requests, reports: seq<DataType>)

  datatype Op = Get(list: seq<DataType>) | Report(t: DataType) | Expire

  predicate Enabled(c: Cycle, op: Op) {
    op.Expire? ==> c.r.pending
  }

  function Apply(c: Cycle, op: Op): Cycle {
    match op
    case Get(list) => Cycle(Requested(c.r, list), if ValidLength(|list|) then [] else c.reports)
    case Report(t) =>
      var r := Reported(c.r, t);
      Cycle(r, if r.sent > c.r.sent then [] else if t in c.r.list then c.reports + [t] else c.reports)
    case Expire => Cycle(Sent(c.r), [])
  }

  /** A request is pending exactly while types are outstanding, fewer reports are counted than were
      asked for, and the count is the number of reports that were. */
  ghost predicate Inv(c: Cycle) {
    && (c.r.pending <==> c.r.list != [])
    && |c.r.list| <= APP_DATA_COUNT
    && (c.r.pending ==> c.r.counted < |c.r.list|)
    && c.r.counted == |c.reports|
    && forall k :: 0 <= k < |c.reports| ==> c.reports[k] in c.r.list
  }

  /** Every step keeps the invariant, except a refused list while nothing is pending: the timer then
      runs with nothing asked for. */
  lemma StepKeeps(c: Cycle, op: Op)
    requires Inv(c) && Enabled(c, op)
    ensures Inv(Apply(c, op)) <==> (op.Get? && !ValidLength(|op.list|) ==> c.r.pending)
  {
  }

  lemma NothingAskedFor(c: Cycle)
    requires Inv(c)
    ensures c.r.list == [] ==> c.reports == []
  {
    if c.reports != [] {
      assert c.reports[0] in c.r.list;
    }
  }

  /** In that state the next report of any type announces data nobody asked for. */
  lemma RefusedListSends(c: Cycle, list: seq<DataType>, t: DataType)
    requires Inv(c) && !c.r.pending && !ValidLength(|list|)
    ensures Apply(Apply(c, Get(list)), Report(t)).r.sent == c.r.sent + 1
  {
    NothingAskedFor(c);
  }

  // ----- The pigeonhole -----

  ghost function Set(list: seq<DataType>): set<DataType> {
    set t | t in list
  }

  lemma {:induction false} DistinctSize(list: seq<DataType>)
    ensures |Set(list)| <= |list|
    ensures |Set(list)| == |list| <==> Distinct(list)
  {
    if list == [] {
      assert Set(list) == {};
    } else {
      var n := |list| - 1;
      var front := list[..n];
      DistinctSize(front);
      assert list == front + [list[n]];
      assert Set(list) == Set(front) + {list[n]};
      if list[n] in front {
        assert Set(list) == Set(front);
        var k :| 0 <= k < n && front[k] == list[n];
        assert list[k] == list[n];
      } else {
        assert |Set(list)| == |Set(front)| + 1;
        assert Distinct(front) ==> Distinct(list);
        assert Distinct(list) ==> Distinct(front);
      }
    }
  }

  lemma SubsetSize(a: set<DataType>, b: set<DataType>)
    requires a <= b
    ensures |a| <= |b|
    ensures |a| == |b| ==> a == b
  {
    var rest := b - a;
    assert b == a + rest && a !! rest;
    assert |b| == |a| + |rest|;
  }

  /** As many reports as types asked for cover all of them exactly when no type reported twice. */
  lemma Pigeonhole(list: seq<DataType>, reports: seq<DataType>)
    requires Distinct(list) && |reports| == |list|
    requires forall k :: 0 <= k < |reports| ==> reports[k] in list
    ensures (forall t :: t in list ==> t in reports) <==> Distinct(reports)
  {
    DistinctSize(list);
    DistinctSize(reports);
    assert Set(reports) <= Set(list);
    SubsetSize(Set(reports), Set(list));
    if forall t :: t in list ==> t in reports {
      assert Set(list) <= Set(reports);
      assert Set(list) == Set(reports);
    }
    if Distinct(reports) {
      assert Set(reports) == Set(list);
      forall t | t in list
        ensures t in reports
      {
        assert t in Set(reports);
      }
    }
  }

  /** A report that makes the module announce the data before the timeout completes the request: every
      type asked for has reported, provided none reported twice, and only then. */
  lemma ReadyIsComplete(c: Cycle, t: DataType)
    requires Inv(c) && c.r.pending && Distinct(c.r.list)
    requires Apply(c, Report(t)).r.sent > c.r.sent
    ensures (forall u :: u in c.r.list ==> u in c.reports + [t]) <==> Distinct(c.reports + [t])
  {
    assert t in c.r.list;
    Pigeonhole(c.r.list, c.reports + [t]);
  }

  /** As long as every type reports at most once the data is announced at the very report that
      completes the request, and not before. */
  lemma ReadyWhenComplete(c: Cycle, t: DataType)
    requires Inv(c) && c.r.pending && Distinct(c.r.list) && Distinct(c.reports + [t]) && t in c.r.list
    ensures Apply(c, Report(t)).r.sent > c.r.sent <==> forall u :: u in c.r.list ==> u in c.reports + [t]
  {
    var reports := c.reports + [t];
    if forall u :: u in c.r.list ==> u in reports {
      DistinctSize(c.r.list);
      DistinctSize(reports);
      assert Set(c.r.list) <= Set(reports) && Set(reports) <= Set(c.r.list);
      SubsetSize(Set(c.r.list), Set(reports));
    } else if |reports| == |c.r.list| {
      Pigeonhole(c.r.list, reports);
    }
  }

  // ----- Runs -----

  /** Lists of a valid length, as data_get makes them, or any list while a request is pending. */
  ghost predicate Allowed(c: Cycle, op: Op) {
    Enabled(c, op) && (op.Get? && !ValidLength(|op.list|) ==> c.r.pending)
  }

  ghost predicate AllowedRun(c: Cycle, ops: seq<Op>)
    decreases |ops|
  {
    ops == [] || (Allowed(c, ops[0]) && AllowedRun(Apply(c, ops[0]), ops[1..]))
  }

  function Run(c: Cycle, ops: seq<Op>): Cycle
    decreases |ops|
  {
    if ops == [] then c else Run(Apply(c, ops[0]), ops[1..])
  }

  lemma {:induction false} RunKeeps(c: Cycle, ops: seq<Op>)
    requires Inv(c) && AllowedRun(c, ops)
    ensures Inv(Run(c, ops))
    decreases |ops|
  {
    if ops != [] {
      StepKeeps(c, ops[0]);
      hide Inv, Apply, Enabled;
      RunKeeps(Apply(c, ops[0]), ops[1..]);
    }
  }

  const POWER_UP := Cycle(Requests([], 0, false, 0), [])

  /** In every reachable state the counter and the timer agree with the set of types asked for. */
  lemma CounterRefinesSet(ops: seq<Op>)
    requires AllowedRun(POWER_UP, ops)
    ensures Inv(Run(POWER_UP, ops))
  {
    RunKeeps(POWER_UP, ops);
  }

  // ----- The application's requests over a run -----

  /** Every request is one data_get makes. */
  ghost predicate FromApplication(ops: seq<Op>) {
    forall k :: 0 <= k < |ops| && ops[k].Get? ==> exists s, l :: ops[k].list == AskedFor(s, l)
  }

  /** What the latest request asks for. */
  function Asked(ops: seq<Op>): seq<DataType>
    decreases |ops|
  {
    if ops == [] then []
    else
      var last := ops[|ops| - 1];
      if last.Get? then last.list else Asked(ops[..|ops| - 1])
  }

  /** The reports of types asked for that have come in since. */
  function Answers(ops: seq<Op>): seq<DataType>
    decreases |ops|
  {
    if ops == [] then []
    else
      var front, last := ops[..|ops| - 1], ops[|ops| - 1];
      match last
      case Get(_) => []
      case Report(t) => Answers(front) + if t in Asked(front) then [t] else []
      case Expire => Answers(front)
  }

  lemma {:induction false} RunAppend(c: Cycle, ops: seq<Op>, op: Op)
    ensures Run(c, ops + [op]) == Apply(Run(c, ops), op)
    ensures AllowedRun(c, ops + [op]) <==> AllowedRun(c, ops) && Allowed(Run(c, ops), op)
    decreases |ops|
  {
    hide Apply, Allowed;
    if ops == [] {
      assert [op][1..] == [] && ops + [op] == [op];
    } else {
      assert (ops + [op])[1..] == ops[1..] + [op];
      RunAppend(Apply(c, ops[0]), ops[1..], op);
    }
  }

  /** While a request is pending, the module's list and the reports it has counted are those of the
      events since the latest request. */
  lemma {:induction false} PendingTracksAnswers(ops: seq<Op>)
    requires AllowedRun(POWER_UP, ops) && FromApplication(ops)
    ensures var c := Run(POWER_UP, ops);
            c.r.pending ==> c.r.list == Asked(ops) && Distinct(c.r.list) && c.reports == Answers(ops)
    decreases |ops|
  {
    if ops != [] {
      var front, last := ops[..|ops| - 1], ops[|ops| - 1];
      assert ops == front + [last];
      RunAppend(POWER_UP, front, last);
      assert forall k :: 0 <= k < |front| ==> front[k] == ops[k];
      PendingTracksAnswers(front);
      CounterRefinesSet(front);
      if last.Get? {
        var s, l :| last.list == AskedFor(s, l);
        AskedForIsDistinct(s, l);
        hide AskedFor;
      }
      hide Run, AllowedRun, Distinct;
    }
  }

  /** Over every run of the application's requests, reports and timeouts: data that a report
      announces while a request is pending, so before its timeout, is complete, that is, every type
      of the latest request has reported since, if and only if none of them reported twice. */
  lemma ReadyMeansAllReported(ops: seq<Op>, t: DataType)
    requires AllowedRun(POWER_UP, ops) && FromApplication(ops)
    requires Run(POWER_UP, ops).r.pending
    requires Run(POWER_UP, ops + [Report(t)]).r.sent > Run(POWER_UP, ops).r.sent
    ensures var answers := Answers(ops + [Report(t)]);
            (forall u :: u in Asked(ops) ==> u in answers) <==> Distinct(answers)
  {
    var c := Run(POWER_UP, ops);
    assert (ops + [Report(t)])[..|ops|] == ops;
    RunAppend(POWER_UP, ops, Report(t));
    PendingTracksAnswers(ops);
    CounterRefinesSet(ops);
    assert t in c.r.list;
    ReadyIsComplete(c, t);
    hide Run, AllowedRun, Distinct, Asked;
  }

  // ----- The timer's handler in between -----

  /** The timer's handler runs in another thread.  If it runs after a report has found the timer
      pending and before the report is counted, the data is announced twice. */
  lemma ExpiryInBetween(c: Cycle, t: DataType)
    requires Inv(c) && c.r.pending
    ensures Counted(Sent(c.r), t).sent == c.r.sent + 2
  {
  }
}
