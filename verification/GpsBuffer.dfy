/** The buffer of GPS fixes (c_modules/modem/src/gps.c) and the filter in front of it
    (c_modules/modem/src/modem_spi.c). */
module GpsBuffer {
  import opened Json
  import opened Budget

  const CONFIG_MAX_GPS_DATA_POINTS: nat := 32
  const GPS_HEADER: int := 4 + 5   // sizeof("GPS") + 5
  const GPS_MINIMUM: int := 10

  /** `entry` is the object the fix is printed as. */
  datatype Fix = Fix(latitude: int, longitude: int, timeToLock: int, entry: Json)

  predicate Zero(f: Fix) {
    f.latitude == 0 || f.longitude == 0
  }

  predicate Admitted(f: Fix) {
    f.timeToLock != 0 && !Zero(f)
  }

  function Entries(fixes: seq<Fix>): (r: seq<Json>)
    ensures |r| == |fixes|
  {
    if fixes == [] then [] else [fixes[0].entry] + Entries(fixes[1..])
  }

  lemma {:induction false} EntriesAppend(fixes: seq<Fix>, f: Fix)
    ensures Entries(fixes + [f]) == Entries(fixes) + [f.entry]
    decreases |fixes|
  {
    if fixes != [] {
      EntriesAppend(fixes[1..], f);
      assert (fixes + [f])[1..] == fixes[1..] + [f];
    }
  }

  lemma {:induction false} EntriesTake(fixes: seq<Fix>, k: nat)
    requires k <= |fixes|
    ensures Entries(fixes)[..k] == Entries(fixes[..k])
    decreases |fixes|
  {
    if k > 0 {
      EntriesTake(fixes[1..], k - 1);
      assert fixes[..k][1..] == fixes[1..][..k - 1];
    }
  }

  // ----- Emitting the buffer -----

  /** The loop over the buffer: fixes with a zero coordinate are popped without being emitted. */
  datatype Scan = Scan(taken: seq<Fix>, skipped: nat, left: seq<Fix>, remaining: int)

  function ScanFrom(queue: seq<Fix>, budget: int): (s: Scan)
    ensures |s.taken| + s.skipped + |s.left| == |queue|
    decreases |queue|
  {
    if queue == [] then Scan([], 0, [], budget)
    else if Zero(queue[0]) then
      var s := ScanFrom(queue[1..], budget);
      s.(skipped := s.skipped + 1)
    else if Below(budget, Width(queue[0].entry)) then Scan([], 0, queue, budget)
    else
      var s := ScanFrom(queue[1..], budget - Width(queue[0].entry));
      s.(taken := [queue[0]] + s.taken)
  }

  function EmitGps(queue: seq<Fix>, remaining: int): Emission<Fix> {
    if queue == [] then Emission([], [], false, remaining, -1)
    else if remaining < GPS_MINIMUM then Emission([], queue, false, remaining, -ENOMEM)
    else
      var s := ScanFrom(queue, remaining - GPS_HEADER);
      Emission(s.taken, s.left, true, s.remaining, if s.left == [] then 0 else 1)
  }

  /** gps_data_fifo_count after emitting: zeroed when the queue runs empty, otherwise decremented
      only for the fixes emitted. */
  function CountAfter(queue: seq<Fix>, count: int, remaining: int): int {
    if queue == [] || remaining < GPS_MINIMUM then count
    else
      var s := ScanFrom(queue, remaining - GPS_HEADER);
      if s.left == [] then 0 else count - |s.taken|
  }

  /** In the middle of the loop: `taken` has been emitted, `skipped` fixes were popped without. */
  ghost predicate Scanning(all: Scan, taken: seq<Fix>, skipped: nat, queue: seq<Fix>, left: int) {
    var rest := ScanFrom(queue, left);
    all == Scan(taken + rest.taken, skipped + rest.skipped, rest.left, rest.remaining)
  }

  lemma ScanningStart(queue: seq<Fix>, budget: int)
    ensures Scanning(ScanFrom(queue, budget), [], 0, queue, budget)
  {
    assert [] + ScanFrom(queue, budget).taken == ScanFrom(queue, budget).taken;
  }

  lemma ScanningStep(all: Scan, taken: seq<Fix>, skipped: nat, queue: seq<Fix>, left: int)
    requires Scanning(all, taken, skipped, queue, left) && queue != []
    ensures var w := Width(queue[0].entry);
            if Zero(queue[0]) then Scanning(all, taken, skipped + 1, queue[1..], left)
            else if Below(left, w) then all == Scan(taken, skipped, queue, left)
            else Scanning(all, taken + [queue[0]], skipped, queue[1..], left - w)
  {
    hide Width, Below, Zero;
    assert taken + [] == taken;
    var rest := ScanFrom(queue[1..], left - Width(queue[0].entry)).taken;
    assert taken + ([queue[0]] + rest) == (taken + [queue[0]]) + rest;
  }

  lemma ScanningEnd(all: Scan, taken: seq<Fix>, skipped: nat, left: int)
    requires Scanning(all, taken, skipped, [], left)
    ensures all == Scan(taken, skipped, [], left)
  {
    assert taken + [] == taken;
  }

  lemma EmitsNothing(queue: seq<Fix>, count: int, remaining: int)
    ensures queue == [] ==> EmitGps(queue, remaining) == Emission([], [], false, remaining, -1)
    ensures queue != [] && remaining < GPS_MINIMUM ==>
              EmitGps(queue, remaining) == Emission([], queue, false, remaining, -12)
    ensures queue == [] || remaining < GPS_MINIMUM ==> CountAfter(queue, count, remaining) == count
  {
  }

  lemma EmitsScan(queue: seq<Fix>, count: int, remaining: int, s: Scan)
    requires queue != [] && remaining >= GPS_MINIMUM && s == ScanFrom(queue, remaining - GPS_HEADER)
    ensures EmitGps(queue, remaining) == Emission(s.taken, s.left, true, s.remaining, if s.left == [] then 0 else 1)
    ensures CountAfter(queue, count, remaining) == if s.left == [] then 0 else count - |s.taken|
  {
  }

  class GpsData {
    var fifo: seq<Fix>
    var count: int

    ghost predicate Valid()
      reads this
    {
      count == |fifo| <= CONFIG_MAX_GPS_DATA_POINTS
    }

    constructor ()
      ensures Valid() && fifo == []
    {
      fifo, count := [], 0;
    }

    method Get()
      requires fifo != []
      modifies this`fifo
      ensures fifo == old(fifo)[1..]
    {
      fifo := fifo[1..];
    }

    method Clear()
      modifies this
      ensures Valid() && fifo == []
    {
      while fifo != []
        decreases |fifo|
      {
        Get();
      }
      count := 0;
    }

    /** `allocOk`: the heap has room for the new fix.  The precondition is what the eviction loop
        needs to end; the counter need not be right. */
    method Add(f: Fix, allocOk: bool)
      requires EvictionEnds(count, |fifo|)
      modifies this
      ensures fifo == old(fifo)[Excess(old(count))..] + if allocOk then [f] else []
      ensures count == old(count) - Excess(old(count)) + if allocOk then 1 else 0
      ensures old(Valid()) ==> Valid() && fifo == Room(old(fifo)) + if allocOk then [f] else []
    {
      ghost var n: nat := 0;
      while count >= CONFIG_MAX_GPS_DATA_POINTS
        invariant EvictionEnds(count, |fifo|)
        invariant n <= Excess(old(count)) && n <= |old(fifo)|
        invariant fifo == old(fifo)[n..] && count == old(count) - n
        decreases count
      {
        if fifo != [] {
          Get();
          count := count - 1;
          n := n + 1;
        }
      }
      if !allocOk {
        return;
      }
      fifo := fifo + [f];
      count := count + 1;
    }

    /** The message from the modem: a fix without lock or with a zero coordinate is not stored. */
    method ReceiveGpsData(f: Fix, allocOk: bool) returns (ret: int)
      requires Valid()
      modifies this
      ensures Valid()
      ensures fifo == if Admitted(f) then Room(old(fifo)) + if allocOk then [f] else [] else old(fifo)
      ensures ret == if f.timeToLock != 0 && (f.latitude == 0 || f.longitude == 0) then -22 else 0
    {
      if f.timeToLock == 0 {
        return 0;
      }
      if f.latitude == 0 || f.longitude == 0 {
        return -EINVAL;
      }
      Add(f, allocOk);
      return 0;
    }

    method GetJsonList(parent: Node, remaining: int) returns (ret: int, left: int)
      modifies this, parent
      ensures var e := EmitGps(old(fifo), remaining);
              && ret == e.ret && left == e.remaining && fifo == e.left
              && parent.fields == old(parent.fields) + ArrayField("GPS", e.added, Entries(e.taken))
      ensures count == CountAfter(old(fifo), old(count), remaining)
    {
      ghost var before, queue := parent.fields, fifo;
      ghost var all := ScanFrom(queue, remaining - GPS_HEADER);
      EmitsNothing(queue, count, remaining);
      ScanningStart(queue, remaining - GPS_HEADER);
      if queue != [] && remaining >= GPS_MINIMUM {
        EmitsScan(queue, count, remaining, all);
      }
      hide Width, Below, Scanning, ScanFrom, EmitGps, CountAfter;
      left := remaining;
      if fifo == [] {
        return -1, left;
      }
      if remaining < GPS_MINIMUM {
        return -ENOMEM, left;
      }
      parent.Add("GPS", Array([]));
      left := left - GPS_HEADER;
      ghost var taken, skipped: nat := [], 0;
      assert Entries(taken) == [];
      hide Entries;
      while fifo != []
        invariant Scanning(all, taken, skipped, fifo, left)
        invariant parent.fields == before + [Field("GPS", Array(Entries(taken)))]
        invariant count == old(count) - |taken|
        decreases |fifo|
      {
        ScanningStep(all, taken, skipped, fifo, left);
        var f := fifo[0];
        if f.latitude == 0 || f.longitude == 0 {
          Get();
          skipped := skipped + 1;
          continue;
        }
        if Below(left, Width(f.entry)) {
          return 1, left;
        }
        Get();
        left := left - Width(f.entry);
        EntriesAppend(taken, f);
        parent.AddItem(f.entry, before, "GPS", Entries(taken));
        taken := taken + [f];
        count := count - 1;
      }
      ScanningEnd(all, taken, skipped, left);
      Clear();
      return 0, left;
    }
  }

  /** What is left of a full buffer before a new fix goes in. */
  function Room(queue: seq<Fix>): seq<Fix> {
    if |queue| < CONFIG_MAX_GPS_DATA_POINTS then queue
    else queue[|queue| - CONFIG_MAX_GPS_DATA_POINTS + 1..]
  }

  // ----- The counter -----

  /** How many fixes the eviction loop has to remove. */
  function Excess(count: int): nat {
    if count < CONFIG_MAX_GPS_DATA_POINTS then 0 else count - CONFIG_MAX_GPS_DATA_POINTS + 1
  }

  /** As many as bring the counter below 32, and no more. */
  lemma ExcessIsNeeded(count: int)
    ensures count - Excess(count) < 32 && (Excess(count) == 0 || count - Excess(count) == 31)
  {
  }

  predicate EvictionEnds(count: int, length: nat) {
    count < CONFIG_MAX_GPS_DATA_POINTS || length > count - CONFIG_MAX_GPS_DATA_POINTS
  }

  /** The counter after `n` turns of the eviction loop. */
  function Evicted(count: int, length: nat, n: nat): int {
    if n == 0 then count
    else if count < CONFIG_MAX_GPS_DATA_POINTS || length == 0 then Evicted(count, length, n - 1)
    else Evicted(count - 1, length - 1, n - 1)
  }

  lemma {:induction false} EvictedIs(count: int, length: nat, n: nat)
    ensures !EvictionEnds(count, length) ==> Evicted(count, length, n) >= CONFIG_MAX_GPS_DATA_POINTS
    ensures EvictionEnds(count, length) && n >= count - CONFIG_MAX_GPS_DATA_POINTS + 1 ==>
              Evicted(count, length, n) < CONFIG_MAX_GPS_DATA_POINTS
    decreases n
  {
    if n > 0 {
      if count < CONFIG_MAX_GPS_DATA_POINTS || length == 0 {
        EvictedIs(count, length, n - 1);
      } else {
        EvictedIs(count - 1, length - 1, n - 1);
      }
    }
  }

  /** The eviction loop ends exactly when the counter is below the limit or the queue holds enough
      fixes to bring it there; it always does while the counter is the queue's length. */
  lemma EvictionEndsIff(count: int, length: nat)
    ensures (exists n: nat :: Evicted(count, length, n) < CONFIG_MAX_GPS_DATA_POINTS) <==> EvictionEnds(count, length)
    ensures count == length ==> EvictionEnds(count, length)
  {
    forall n: nat
      ensures !EvictionEnds(count, length) ==> Evicted(count, length, n) >= CONFIG_MAX_GPS_DATA_POINTS
    {
      EvictedIs(count, length, n);
    }
    EvictedIs(count, length, Excess(count));
    assert EvictionEnds(count, length) ==> Evicted(count, length, Excess(count)) < CONFIG_MAX_GPS_DATA_POINTS;
  }

  ghost predicate NoZero(queue: seq<Fix>) {
    forall k :: 0 <= k < |queue| ==> !Zero(queue[k])
  }

  ghost predicate ScansPrefix(queue: seq<Fix>, budget: int, k: nat) {
    && k <= |queue|
    && ScanFrom(queue, budget) == Scan(queue[..k], 0, queue[k..], budget - ItemsWidth(Entries(queue[..k])))
  }

  lemma EntriesTail(queue: seq<Fix>)
    requires queue != []
    ensures Entries(queue)[0] == queue[0].entry && Entries(queue)[1..] == Entries(queue[1..])
  {
  }

  function NonZeros(queue: seq<Fix>): (r: seq<Fix>)
    ensures |r| <= |queue|
  {
    if queue == [] then [] else (if Zero(queue[0]) then [] else [queue[0]]) + NonZeros(queue[1..])
  }

  lemma {:induction false} NonZerosOfNoZero(queue: seq<Fix>)
    requires NoZero(queue)
    ensures NonZeros(queue) == queue
    decreases |queue|
  {
    if queue != [] {
      assert !Zero(queue[0]) && NoZero(queue[1..]);
      NonZerosOfNoZero(queue[1..]);
    }
  }

  /** The first `n` fixes of the queue, or all of a shorter one, have no zero coordinate. */
  ghost predicate NoneAmong(queue: seq<Fix>, n: nat) {
    forall i :: 0 <= i < n && i < |queue| ==> !Zero(queue[i])
  }

  lemma NoneAmongTail(queue: seq<Fix>, n: nat)
    requires queue != [] && !Zero(queue[0])
    ensures NoneAmong(queue, n + 1) <==> NoneAmong(queue[1..], n)
  {
    hide Zero;
    if NoneAmong(queue, n + 1) {
      assert forall i :: 0 <= i < |queue| - 1 ==> queue[1..][i] == queue[i + 1];
    } else {
      var i :| 0 <= i < n + 1 && i < |queue| && Zero(queue[i]);
      assert Zero(queue[1..][i - 1]);
    }
  }

  /** For any queue: emitted are the first fixes without zero coordinate that fit, as many as
      possible; something is left if and only if not all of them fit; and then a zero fix has been
      skipped exactly when there is one before the first fix that did not fit. */
  ghost predicate ScansFitting(queue: seq<Fix>, budget: int, m: nat) {
    var s, nz := ScanFrom(queue, budget), NonZeros(queue);
    && m <= |nz|
    && s.taken == nz[..m] && (s.left == [] <==> m == |nz|)
    && (m < |nz| ==> (s.skipped == 0 <==> NoneAmong(queue, m + 1)))
    && s.remaining == budget - ItemsWidth(Entries(nz[..m]))
  }

  lemma FitNonZeros(queue: seq<Fix>, budget: int)
    requires queue != []
    ensures var rest, w := queue[1..], Width(queue[0].entry);
            Fit(Entries(NonZeros(queue)), budget) ==
              if Zero(queue[0]) then Fit(Entries(NonZeros(rest)), budget)
              else if Below(budget, w) then 0 else 1 + Fit(Entries(NonZeros(rest)), budget - w)
  {
    hide Width, Below, Zero, Fit;
    var nz := [queue[0]] + NonZeros(queue[1..]);
    if Zero(queue[0]) {
      assert NonZeros(queue) == NonZeros(queue[1..]);
    } else {
      assert NonZeros(queue) == nz && nz[1..] == NonZeros(queue[1..]);
      EntriesTail(nz);
      FitUnfold(Entries(nz), budget);
    }
  }

  lemma {:induction false} ScanIs(queue: seq<Fix>, budget: int)
    ensures ScansFitting(queue, budget, Fit(Entries(NonZeros(queue)), budget))
    decreases |queue|
  {
    if queue != [] {
      hide *;
      var rest, w := queue[1..], Width(queue[0].entry);
      FitNonZeros(queue, budget);
      if Zero(queue[0]) {
        ScanIs(rest, budget);
        ScansFittingSkip(queue, budget, Fit(Entries(NonZeros(rest)), budget));
      } else if Below(budget, w) {
        ScansFittingStop(queue, budget);
      } else {
        ScanIs(rest, budget - w);
        ScansFittingCons(queue, budget, Fit(Entries(NonZeros(rest)), budget - w));
      }
    }
  }

  lemma ScansFittingStop(queue: seq<Fix>, budget: int)
    requires queue != [] && !Zero(queue[0]) && Below(budget, Width(queue[0].entry))
    ensures ScansFitting(queue, budget, 0)
  {
    hide Width, Below, Zero;
    assert NonZeros(queue)[..0] == [] && NonZeros(queue) != [];
  }

  lemma ScansFittingSkip(queue: seq<Fix>, budget: int, m: nat)
    requires queue != [] && Zero(queue[0])
    requires ScansFitting(queue[1..], budget, m)
    ensures NonZeros(queue) == NonZeros(queue[1..])
    ensures ScansFitting(queue, budget, m)
  {
    hide Width, Below, Zero, Entries, ItemsWidth;
    assert NonZeros(queue) == NonZeros(queue[1..]);
    assert Zero(queue[0]);
  }

  lemma ScansFittingCons(queue: seq<Fix>, budget: int, m: nat)
    requires queue != [] && !Zero(queue[0]) && !Below(budget, Width(queue[0].entry))
    requires ScansFitting(queue[1..], budget - Width(queue[0].entry), m)
    ensures ScansFitting(queue, budget, m + 1)
  {
    hide Width, Below, Zero;
    var rest := queue[1..];
    var nz := [queue[0]] + NonZeros(rest);
    assert NonZeros(queue) == nz;
    var prefix := [queue[0]] + NonZeros(rest)[..m];
    assert nz[..m + 1] == prefix && prefix[1..] == NonZeros(rest)[..m];
    EntriesTail(prefix);
    NoneAmongTail(queue, m + 1);
  }

  /** Emitting keeps the counter equal to the queue's length exactly when all fixes without zero
      coordinate fit, or none with one stands among those looked at: the ones that fit and the
      first that does not. */
  lemma CountKept(queue: seq<Fix>, remaining: int)
    requires queue != [] && remaining >= GPS_MINIMUM
    ensures var m := Longest(Entries(NonZeros(queue)), remaining - GPS_HEADER);
            CountAfter(queue, |queue|, remaining) == |EmitGps(queue, remaining).left| <==>
              m == |NonZeros(queue)| || NoneAmong(queue, m + 1)
  {
    hide Fit, Entries, ItemsWidth, NonZeros, NoneAmong, Longest, ScanFrom;
    ScanIs(queue, remaining - GPS_HEADER);
    FitIsLongestPrefix(Entries(NonZeros(queue)), remaining - GPS_HEADER);
  }

  lemma {:induction false} ScanLeavesSuffix(queue: seq<Fix>, budget: int)
    ensures var s := ScanFrom(queue, budget);
            s.left == queue[|queue| - |s.left|..]
    decreases |queue|
  {
    hide Width, Below, Zero;
    if queue != [] {
      ScanLeavesSuffix(queue[1..], budget);
      ScanLeavesSuffix(queue[1..], budget - Width(queue[0].entry));
    }
  }

  /** Without zero fixes the emitter takes exactly the longest prefix that fits and leaves the rest
      untouched. */
  lemma ScanIsPrefix(queue: seq<Fix>, budget: int)
    requires NoZero(queue)
    ensures ScansPrefix(queue, budget, Fit(Entries(queue), budget))
  {
    ScanIs(queue, budget);
    ScanLeavesSuffix(queue, budget);
    NonZerosOfNoZero(queue);
    hide ScanFrom, Fit, Entries, ItemsWidth, NonZeros, Zero;
    assert queue[|queue|..] == [];
  }

  // ----- Runs -----

  /** `admitted` lists every fix ever admitted, `reported` counts those up to the last one emitted. */
  datatype History = History(fifo: seq<Fix>, count: int, admitted: seq<Fix>, reported: nat)

  datatype Op = Arrive(f: Fix) | Report(remaining: int)

  function Apply(h: History, op: Op): History {
    match op
    case Arrive(f) =>
      if !Admitted(f) then h
      else
        var room := Room(h.fifo);
        h.(fifo := room + [f], count := |room| + 1, admitted := h.admitted + [f])
    case Report(remaining) =>
      var e := EmitGps(h.fifo, remaining);
      h.(fifo := e.left, count := CountAfter(h.fifo, h.count, remaining),
         reported := if e.taken == [] then h.reported
                     else if |h.admitted| >= |e.left| then |h.admitted| - |e.left| else 0)
  }

  function Start(h: History): int {
    var oldest := |h.admitted| - CONFIG_MAX_GPS_DATA_POINTS;
    if h.reported > oldest then h.reported else oldest
  }

  /** The buffer is exactly the newest unreported fixes, and the counter its length. */
  ghost predicate Inv(h: History) {
    && h.reported <= |h.admitted|
    && 0 <= Start(h) <= |h.admitted| && h.fifo == h.admitted[Start(h)..]
    && h.count == |h.fifo| <= CONFIG_MAX_GPS_DATA_POINTS
    && NoZero(h.admitted)
  }

  lemma ArriveKeeps(h: History, f: Fix)
    requires Inv(h)
    ensures Inv(Apply(h, Arrive(f)))
  {
    if Admitted(f) {
      var t := Apply(h, Arrive(f));
      assert t.admitted[Start(t)..] == h.admitted[Start(t)..] + [f];
    }
  }

  /** Without zero fixes a report takes some of the oldest fixes and the counter follows. */
  lemma ReportTakes(queue: seq<Fix>, remaining: int) returns (k: nat)
    requires NoZero(queue)
    ensures k <= |queue|
    ensures EmitGps(queue, remaining).taken == queue[..k] && EmitGps(queue, remaining).left == queue[k..]
    ensures CountAfter(queue, |queue|, remaining) == |queue| - k
  {
    k := 0;
    if queue != [] && remaining >= GPS_MINIMUM {
      k := Fit(Entries(queue), remaining - GPS_HEADER);
      ScanIsPrefix(queue, remaining - GPS_HEADER);
      hide Fit, ScanFrom, Entries, ItemsWidth, Zero;
    }
  }

  lemma ReportKeeps(h: History, remaining: int)
    requires Inv(h)
    ensures Inv(Apply(h, Report(remaining)))
  {
    hide Zero, EmitGps, CountAfter;
    var s := Start(h);
    assert forall i :: 0 <= i < |h.fifo| ==> h.fifo[i] == h.admitted[s + i];
    var k := ReportTakes(h.fifo, remaining);
    assert h.fifo[k..] == h.admitted[s + k..];
  }

  function Run(h: History, ops: seq<Op>): History
    decreases |ops|
  {
    if ops == [] then h else Run(Apply(h, ops[0]), ops[1..])
  }

  lemma {:induction false} RunKeeps(h: History, ops: seq<Op>)
    requires Inv(h)
    ensures Inv(Run(h, ops))
    decreases |ops|
  {
    if ops != [] {
      match ops[0] {
        case Arrive(f) => ArriveKeeps(h, f);
        case Report(remaining) => ReportKeeps(h, remaining);
      }
      hide Inv, Apply;
      RunKeeps(Apply(h, ops[0]), ops[1..]);
    }
  }

  /** The fixes that arrive with a lock and with both coordinates. */
  function Arrivals(ops: seq<Op>): seq<Fix> {
    if ops == [] then []
    else (if ops[0].Arrive? && ops[0].f.timeToLock != 0 && ops[0].f.latitude != 0 && ops[0].f.longitude != 0
          then [ops[0].f] else [])
         + Arrivals(ops[1..])
  }

  lemma {:induction false} AdmittedAre(h: History, ops: seq<Op>)
    ensures Run(h, ops).admitted == h.admitted + Arrivals(ops)
    decreases |ops|
  {
    if ops == [] {
      assert h.admitted + [] == h.admitted;
    } else {
      hide EmitGps, CountAfter;
      AdmittedAre(Apply(h, ops[0]), ops[1..]);
      var first := if Apply(h, ops[0]).admitted == h.admitted then [] else [ops[0].f];
      assert h.admitted + [] == h.admitted;
      assert (h.admitted + first) + Arrivals(ops[1..]) == h.admitted + (first + Arrivals(ops[1..]));
    }
  }

  lemma NewestUnreported(h: History)
    requires Inv(h)
    ensures var waiting := |h.admitted| - h.reported;
            var n := if waiting < 32 then waiting else 32;
            0 <= n <= |h.admitted| && h.fifo == h.admitted[|h.admitted| - n..]
  {
  }

  /** Whatever arrives and is reported: the buffer holds the newest unreported fixes in order, at
      most 32 of them, its counter is its length, and the eviction loop always ends. */
  lemma BufferHoldsNewest(ops: seq<Op>)
    ensures var h := Run(History([], 0, [], 0), ops);
            && h.admitted == Arrivals(ops)
            && EvictionEnds(h.count, |h.fifo|)
            && var waiting := |h.admitted| - h.reported;
               var n := if waiting < 32 then waiting else 32;
               0 <= n <= |h.admitted| && h.fifo == h.admitted[|h.admitted| - n..] && h.count == n
  {
    RunKeeps(History([], 0, [], 0), ops);
    AdmittedAre(History([], 0, [], 0), ops);
    NewestUnreported(Run(History([], 0, [], 0), ops));
  }
}
