/** When a message exceeds the limit of the broker although its arrays are built under a budget
    (c_modules/json/src/d1_json.c, c_modules/modem/src/gps.c): the commas between array entries are
    charged to nobody. */
module MessageLimit {
  import opened Json
  import opened Budget
  import opened GpsBuffer
  import opened Messages
  import opened Options

  // ----- What the arrays will hold, from queues and widths alone -----

  /** How many SSIDs go into a message with `free` bytes to spare, if it gets the array at all. */
  function SsidsPlanned(free: int, queue: seq<WifiObj>): (k: Option<nat>)
    ensures k.Some? ==> k.value <= |queue|
  {
    if queue == [] || free - SSID_CRON_CHARGE < SSIDS_MINIMUM then None
    else Some(Longest(SsidEntries(queue), free - SSID_CRON_CHARGE - SSIDS_HEADER))
  }

  function FreeForGps(free: int, queue: seq<WifiObj>): int {
    match SsidsPlanned(free, queue)
    case None => free - CronCharge(queue)
    case Some(k) => free - SSID_CRON_CHARGE - SSIDS_HEADER - ItemsWidth(SsidEntries(queue[..k]))
  }

  /** Likewise for the fixes, of which those with a zero coordinate do not count. */
  function FixesPlanned(free: int, sendGps: bool, fixes: seq<Fix>): (k: Option<nat>)
    ensures k.Some? ==> k.value <= |NonZeros(fixes)|
  {
    if !sendGps || fixes == [] || free < GPS_MINIMUM then None
    else Some(Longest(Entries(NonZeros(fixes)), free - GPS_HEADER))
  }

  function Unused(free: int, sendGps: bool, fixes: seq<Fix>): int {
    match FixesPlanned(free, sendGps, fixes)
    case None => free
    case Some(k) => free - GPS_HEADER - ItemsWidth(Entries(NonZeros(fixes)[..k]))
  }

  function CommasOf(planned: Option<nat>): nat {
    if planned.Some? then Commas(planned.value) else 0
  }

  lemma SsidsFollowPlan(queue: seq<WifiObj>, free: int)
    ensures var s, k := EmitSsids(queue, free - CronCharge(queue)), SsidsPlanned(free, queue);
            && s.remaining == FreeForGps(free, queue)
            && s.added == k.Some? && (k.Some? ==> |s.taken| == k.value)
  {
    if queue != [] && free - SSID_CRON_CHARGE >= SSIDS_MINIMUM {
      FitIsLongestPrefix(SsidEntries(queue), free - SSID_CRON_CHARGE - SSIDS_HEADER);
      hide SsidEntries, ItemsWidth, Fit, Longest;
    }
  }

  lemma FixesFollowPlan(fixes: seq<Fix>, free: int)
    ensures var g, k := EmitGps(fixes, free), FixesPlanned(free, true, fixes);
            && g.remaining == Unused(free, true, fixes)
            && g.added == k.Some? && (k.Some? ==> |g.taken| == k.value)
  {
    if fixes != [] && free >= GPS_MINIMUM {
      FitIsLongestPrefix(Entries(NonZeros(fixes)), free - GPS_HEADER);
      ScanIs(fixes, free - GPS_HEADER);
      hide Entries, NonZeros, ItemsWidth, Fit, Longest, ScanFrom, NoneAmong;
    }
  }

  // ----- The limit -----

  /** What is known before the call: a message stays within the limit exactly when the commas in its
      arrays do not exceed the padding, the slack of the scan time and the unused rest of the budget.
      How many entries an array gets is the length of the longest prefix that fits. */
  predicate Fits(free: int, scanTime: nat, queue: seq<WifiObj>, sendGps: bool, fixes: seq<Fix>) {
    var rest := FreeForGps(free, queue);
    CommasOf(SsidsPlanned(free, queue)) + CommasOf(FixesPlanned(rest, sendGps, fixes))
      <= PADDING + CronSlack(queue, scanTime) + Unused(rest, sendGps, fixes)
  }

  function FreeBytes(mid: string, r: Request): int {
    CONFIG_MAX_MQTT_MSG_SIZE - PADDING - BaseWidth(mid, r)
  }

  lemma WithinLimit(mid: string, r: Request, scanTime: nat, queue: seq<WifiObj>, sendGps: bool, fixes: seq<Fix>)
    ensures Width(Build(BaseOf(mid, r), scanTime, queue, sendGps, fixes).message) <= CONFIG_MAX_MQTT_MSG_SIZE
       <==> Fits(FreeBytes(mid, r), scanTime, queue, sendGps, fixes)
  {
    var b := BaseOf(mid, r);
    BaseWidthIs(mid, r);
    assert FreeSpace(b) == FreeBytes(mid, r);
    hide BaseOf, BaseWidth, FreeSpace, Width, NumberWidth, FreeBytes, Document, Build, Uncharged, CronSlack,
         CommasOf, SsidsPlanned, FixesPlanned, FreeForGps, Unused;
    Accounting(b, scanTime, queue, sendGps, fixes);
    BuildFollowsPlan(b, scanTime, queue, sendGps, fixes);
  }

  /** The message holds what was planned. */
  lemma BuildFollowsPlan(b: Base, scanTime: nat, queue: seq<WifiObj>, sendGps: bool, fixes: seq<Fix>)
    ensures var built := Build(b, scanTime, queue, sendGps, fixes);
            var rest := FreeForGps(FreeSpace(b), queue);
            && Uncharged(built) ==
                 CommasOf(SsidsPlanned(FreeSpace(b), queue)) + CommasOf(FixesPlanned(rest, sendGps, fixes))
            && built.gps.remaining == Unused(rest, sendGps, fixes)
  {
    SsidsFollowPlan(queue, FreeSpace(b));
    FixesFollowPlan(fixes, FreeForGps(FreeSpace(b), queue));
    hide FreeSpace, EmitSsids, EmitGps, Document, FreeForGps, Longest, Entries, SsidEntries, ItemsWidth, NonZeros,
         CronField, CronCharge, ArrayField;
  }

  /** Few entries in the queues are always safe: with a scan time of ten digits twelve commas, so
      thirteen SSIDs, or fewer beside fixes. */
  lemma FewEntriesFit(mid: string, r: Request, scanTime: nat, queue: seq<WifiObj>, sendGps: bool, fixes: seq<Fix>)
    requires ValidMid(mid) && Representable(r)
    requires Commas(|queue|) + (if sendGps then Commas(|fixes|) else 0) <= PADDING + CronSlack(queue, scanTime)
    ensures Width(Build(BaseOf(mid, r), scanTime, queue, sendGps, fixes).message) <= CONFIG_MAX_MQTT_MSG_SIZE
  {
    hide *;
    WithinLimit(mid, r, scanTime, queue, sendGps, fixes);
    MuchIsFree(mid, r);
    BaseWidthIs(mid, r);
    FreeBytesIs(mid, r);
    FewCommas(FreeBytes(mid, r), scanTime, queue, sendGps, fixes);
  }

  lemma FreeBytesIs(mid: string, r: Request)
    requires Width(Document(BaseOf(mid, r), BaseOf(mid, r).payload)) == BaseWidth(mid, r)
    ensures FreeSpace(BaseOf(mid, r)) == FreeBytes(mid, r)
  {
    hide Width, Document, BaseOf, BaseWidth;
  }

  lemma FewCommas(free: int, scanTime: nat, queue: seq<WifiObj>, sendGps: bool, fixes: seq<Fix>)
    requires free > 1500
    requires Commas(|queue|) + (if sendGps then Commas(|fixes|) else 0) <= PADDING + CronSlack(queue, scanTime)
    ensures Fits(free, scanTime, queue, sendGps, fixes)
  {
    var rest := FreeForGps(free, queue);
    SsidsFollowPlan(queue, free);
    SsidCharge(queue, free - CronCharge(queue));
    FixesFollowPlan(fixes, rest);
    GpsCharge(fixes, rest);
    hide EmitSsids, EmitGps, Longest, Entries, SsidEntries, ItemsWidth, NonZeros, CronSlack;
  }

  // ----- A message over the limit -----

  const NEIGHBOUR := WifiObj("aa:bb:cc:dd:ee:ff", "-70", -70, 11)

  function Neighbours(n: nat): (ws: seq<WifiObj>)
    ensures |ws| == n
  {
    if n == 0 then [] else [NEIGHBOUR] + Neighbours(n - 1)
  }

  lemma NeighbourWidth()
    ensures Width(SsidEntry(NEIGHBOUR)) == 68
  {
  }

  lemma NeighboursCons(n: nat)
    requires n > 0
    ensures SsidEntries(Neighbours(n)) == [SsidEntry(NEIGHBOUR)] + SsidEntries(Neighbours(n - 1))
  {
    hide SsidEntry;
    assert Neighbours(n)[1..] == Neighbours(n - 1);
  }

  lemma ItemsWidthCons(item: Json, items: seq<Json>)
    ensures ItemsWidth([item] + items) == Width(item) + ItemsWidth(items)
  {
    hide Width;
    assert ([item] + items)[1..] == items;
  }

  lemma {:induction false} NeighboursWidth(n: nat)
    ensures ItemsWidth(SsidEntries(Neighbours(n))) == 68 * n
  {
    if n == 0 {
      assert SsidEntries(Neighbours(0)) == [];
    } else {
      hide *;
      NeighboursWidth(n - 1);
      NeighbourWidth();
      NeighboursCons(n);
      ItemsWidthCons(SsidEntry(NEIGHBOUR), SsidEntries(Neighbours(n - 1)));
    }
  }

  const COLLAR := "0123456789AB"
  const NETWORK := "Blue-House-Upstairs-Guest-5G"

  /** A collar connected to a network that is no safe zone, with LTE on. */
  const REQUEST := Request(Some(123456), Some(564321), Some(NETWORK), Some(false), 1_700_000_100, 5)

  lemma RequestWidth()
    ensures ValidMid(COLLAR) && Representable(REQUEST) && BaseWidth(COLLAR, REQUEST) == 234
  {
    assert |COLLAR| == 12 && |NETWORK| == 28;
    assert NumberWidth(123456) == 6 && NumberWidth(564321) == 6;
    assert NumberWidth(1_700_000_100) == 10 && NumberWidth(5) == 1;
    hide NumberWidth;
    assert OptionalWidth(REQUEST.cellId, 10) == 16 && OptionalWidth(REQUEST.trackingArea, 17) == 23;
    assert NETWORK != "";
    assert DogWidth(REQUEST) == 67;
    hide OptionalWidth, DogWidth;
  }

  lemma NeighboursFit(n: nat, remaining: int)
    requires n > 0 && remaining == SSIDS_HEADER + 68 * n >= SSIDS_MINIMUM
    ensures EmitSsids(Neighbours(n), remaining) == Emission(Neighbours(n), [], true, 0, 0)
  {
    var queue := Neighbours(n);
    NeighboursWidth(n);
    FitIsLongest(SsidEntries(queue), 68 * n);
    assert SsidEntries(queue)[..n] == SsidEntries(queue) && queue[..n] == queue;
    hide Fit, SsidEntries, ItemsWidth, Neighbours;
  }

  /** The limit is not kept in general: this collar sees 25 access points, and the message has 1992
      bytes, 24 commas being charged to nobody. */
  lemma OverLimit() returns (queue: seq<WifiObj>)
    ensures ValidMid(COLLAR) && Representable(REQUEST) && |queue| == 25
    ensures Width(Build(BaseOf(COLLAR, REQUEST), 1_700_000_000, queue, false, []).message) == 1992
    ensures 1992 > CONFIG_MAX_MQTT_MSG_SIZE
  {
    queue := Neighbours(25);
    RequestWidth();
    BaseWidthIs(COLLAR, REQUEST);
    NeighboursFit(25, 1711);
    hide Neighbours, EmitSsids, BaseOf, BaseWidth, Width, Document;
    AllEmitted(BaseOf(COLLAR, REQUEST), queue);
  }

  lemma AllEmitted(b: Base, queue: seq<WifiObj>)
    requires Width(Document(b, b.payload)) == 234 && b.payload != []
    requires |queue| == 25 && EmitSsids(queue, 1711) == Emission(queue, [], true, 0, 0)
    ensures Width(Build(b, 1_700_000_000, queue, false, []).message) == 1992
  {
    assert CronSlack(queue, 1_700_000_000) == 2;
    hide EmitSsids, NumberWidth, CronSlack, Width, Document, SsidEntries;
    BuildParts(b, 1_700_000_000, queue, false, []);
    Accounting(b, 1_700_000_000, queue, false, []);
  }
}
