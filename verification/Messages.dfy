/** Building the messages to the cloud under a byte budget (c_modules/json/src/d1_json.c,
    c_modules/modem/src/gps.c): the arrays emit as much of their queues as fits. */
module Messages {
  import opened Json
  import opened Budget
  import opened GpsBuffer
  import opened Options
  import opened Text

  /** A k_fifo. */
  class Fifo<T> {
    var items: seq<T>

    constructor (items: seq<T>)
      ensures this.items == items
    {
      this.items := items;
    }

    predicate IsEmpty()
      reads this
    {
      items == []
    }

    method Put(x: T)
      modifies this
      ensures items == old(items) + [x]
    {
      items := items + [x];
    }

    method Get() returns (x: T)
      requires items != []
      modifies this
      ensures x == old(items)[0] && items == old(items)[1..]
    {
      x := items[0];
      items := items[1..];
    }
  }

  // ----- SSIDs -----

  const SSIDS_HEADER: int := 6 + 5   // sizeof("SSIDS") + 5
  const SSIDS_MINIMUM: int := 128

  /** `rssi` is the text the signal strength prints as, `level` its integer part. */
  datatype WifiObj = WifiObj(macstr: string, rssi: string, level: int, channel: int)

  function SsidEntry(w: WifiObj): Json {
    Object([Field("macAddress", Str(w.macstr)), Field("signalStrength", Decimals(w.rssi, w.level)),
            Field("channel", Number(w.channel))])
  }

  function SsidEntries(ws: seq<WifiObj>): (r: seq<Json>)
    ensures |r| == |ws|
  {
    if ws == [] then [] else [SsidEntry(ws[0])] + SsidEntries(ws[1..])
  }

  lemma {:induction false} SsidEntriesTake(ws: seq<WifiObj>, k: nat)
    requires k <= |ws|
    ensures SsidEntries(ws)[..k] == SsidEntries(ws[..k])
    ensures SsidEntries(ws)[k..] == SsidEntries(ws[k..])
    decreases |ws|
  {
    hide SsidEntry;
    if k > 0 {
      SsidEntriesTake(ws[1..], k - 1);
      assert ws[..k][1..] == ws[1..][..k - 1];
    }
  }

  lemma SsidEntriesAppend(ws: seq<WifiObj>, w: WifiObj)
    ensures SsidEntries(ws + [w]) == SsidEntries(ws) + [SsidEntry(w)]
  {
    SsidEntriesTake(ws + [w], |ws|);
    assert (ws + [w])[..|ws|] == ws && (ws + [w])[|ws|..] == [w];
    assert SsidEntries([w]) == [SsidEntry(w)] + SsidEntries([]) by {
      assert [w][1..] == [];
    }
    assert SsidEntries(ws + [w]) == SsidEntries(ws + [w])[..|ws|] + SsidEntries(ws + [w])[|ws|..];
  }

  function EmitSsids(queue: seq<WifiObj>, remaining: int): Emission<WifiObj> {
    if queue == [] then Emission([], [], false, remaining, 0)
    else if remaining < SSIDS_MINIMUM then Emission([], queue, false, remaining, -ENOMEM)
    else
      var budget := remaining - SSIDS_HEADER;
      var k := Fit(SsidEntries(queue), budget);
      Emission(queue[..k], queue[k..], true, budget - ItemsWidth(SsidEntries(queue[..k])),
               if k == |queue| then 0 else 1)
  }

  lemma EntriesWidthAppend(ws: seq<WifiObj>, w: WifiObj)
    ensures ItemsWidth(SsidEntries(ws + [w])) == ItemsWidth(SsidEntries(ws)) + Width(SsidEntry(w))
  {
    SsidEntriesAppend(ws, w);
    ItemsWidthConcat(SsidEntries(ws), [SsidEntry(w)]);
    hide SsidEntry, Width;
    assert [SsidEntry(w)][1..] == [];
  }

  /** After `i` entries have been emitted `left` is what remains of the budget, and what still fits
      is what fits behind them. */
  ghost predicate Emitting(queue: seq<WifiObj>, budget: int, i: nat, left: int) {
    && i <= |queue|
    && i + Fit(SsidEntries(queue[i..]), left) == Fit(SsidEntries(queue), budget)
    && left == budget - ItemsWidth(SsidEntries(queue[..i]))
  }

  lemma EmittingStart(queue: seq<WifiObj>, budget: int)
    ensures Emitting(queue, budget, 0, budget)
  {
    assert queue[0..] == queue;
  }

  lemma SsidTail(queue: seq<WifiObj>, i: nat)
    requires i < |queue|
    ensures SsidEntries(queue[i..])[0] == SsidEntry(queue[i])
    ensures SsidEntries(queue[i..])[1..] == SsidEntries(queue[i + 1..])
  {
    hide SsidEntry;
    assert queue[i..][0] == queue[i] && queue[i..][1..] == queue[i + 1..];
  }

  lemma SsidPrefix(queue: seq<WifiObj>, i: nat)
    requires i < |queue|
    ensures SsidEntries(queue[..i + 1]) == SsidEntries(queue[..i]) + [SsidEntry(queue[i])]
    ensures ItemsWidth(SsidEntries(queue[..i + 1])) == ItemsWidth(SsidEntries(queue[..i])) + Width(SsidEntry(queue[i]))
  {
    assert queue[..i + 1] == queue[..i] + [queue[i]];
    EntriesWidthAppend(queue[..i], queue[i]);
    SsidEntriesAppend(queue[..i], queue[i]);
  }

  /** One turn of the loop: either the head does not fit, or it is emitted and charged. */
  lemma EmittingStep(queue: seq<WifiObj>, budget: int, i: nat, left: int)
    requires i < |queue| && Emitting(queue, budget, i, left)
    ensures var w := Width(SsidEntry(queue[i]));
            if Below(left, w) then Fit(SsidEntries(queue), budget) == i
            else Emitting(queue, budget, i + 1, left - w)
    ensures SsidEntries(queue[..i + 1]) == SsidEntries(queue[..i]) + [SsidEntry(queue[i])]
  {
    hide SsidEntry, Width, Below, SsidEntries, Fit, ItemsWidth;
    SsidTail(queue, i);
    SsidPrefix(queue, i);
    FitUnfold(SsidEntries(queue[i..]), left);
  }

  lemma EmittingEnd(queue: seq<WifiObj>, remaining: int, i: nat, left: int)
    requires queue != [] && remaining >= SSIDS_MINIMUM
    requires Emitting(queue, remaining - SSIDS_HEADER, i, left)
    requires i < |queue| ==> Fit(SsidEntries(queue), remaining - SSIDS_HEADER) == i
    ensures EmitSsids(queue, remaining) ==
              Emission(queue[..i], queue[i..], true, left, if i == |queue| then 0 else 1)
  {
    hide Width, Below, ItemsWidth;
    if i == |queue| {
      assert SsidEntries(queue[i..]) == [];
    }
  }

  lemma EmitsNothing(queue: seq<WifiObj>, remaining: int)
    ensures queue == [] ==> EmitSsids(queue, remaining) == Emission([], [], false, remaining, 0)
    ensures queue != [] && remaining < SSIDS_MINIMUM ==>
              EmitSsids(queue, remaining) == Emission([], queue, false, remaining, -12)
  {
  }

  /** Adds the SSIDS array and fills it from the queue; `remaining` is what the message has left. */
  method AddSsidsToJson(parent: Node, fifo: Fifo<WifiObj>, remaining: int) returns (ret: int, left: int)
    modifies parent, fifo
    ensures var e := EmitSsids(old(fifo.items), remaining);
            && ret == e.ret && left == e.remaining && fifo.items == e.left
            && parent.fields == old(parent.fields) + ArrayField("SSIDS", e.added, SsidEntries(e.taken))
  {
    ghost var queue, before := fifo.items, parent.fields;
    EmitsNothing(queue, remaining);
    EmittingStart(queue, remaining - SSIDS_HEADER);
    assert queue[0..] == queue && SsidEntries(queue[..0]) == [];
    hide SsidEntry, Width, Below, Fit, ItemsWidth, Emitting, SsidEntries, EmitSsids;
    left := remaining;
    if fifo.IsEmpty() {
      return 0, left;
    }
    if remaining < SSIDS_MINIMUM {
      return -ENOMEM, left;
    }
    parent.Add("SSIDS", Array([]));
    left := left - SSIDS_HEADER;
    ghost var i: nat := 0;
    while !fifo.IsEmpty()
      invariant i <= |queue| && fifo.items == queue[i..]
      invariant Emitting(queue, remaining - SSIDS_HEADER, i, left)
      invariant parent.fields == before + [Field("SSIDS", Array(SsidEntries(queue[..i])))]
      decreases |fifo.items|
    {
      EmittingStep(queue, remaining - SSIDS_HEADER, i, left);
      var entry := SsidEntry(fifo.items[0]);
      if Below(left, Width(entry)) {
        EmittingEnd(queue, remaining, i, left);
        return 1, left;
      }
      var data := fifo.Get();
      left := left - Width(entry);
      parent.AddItem(entry, before, "SSIDS", SsidEntries(queue[..i]));
      i := i + 1;
    }
    EmittingEnd(queue, remaining, i, left);
    return 0, left;
  }

  // ----- A whole message -----

  const SSID_CRON_CHARGE: int := 25

  const MAX_MID_SIZE: nat := 12
  const REALTIME_PROTOCOL_VERSION := 1
  const CONFIG_IOT_MQTT_REGION_ID := "US"
  const CONFIG_IOT_MQTT_BRAND_ID := 35
  const MQTT_MESSAGE_TYPE_NEAR_REAL_TIME := 29
  const WHERES_MY_DOG_SUB_TYPE := 22
  const SENT_AT := 1919191919

  /** The optional arguments, the clock and the find-my-dog status. */
  datatype Request = Request(cellId: Option<int>, trackingArea: Option<int>, dogSsid: Option<string>,
                             inSafeZone: Option<bool>, now: nat, fmdStatus: nat)

  /** A message before the arrays: the fields around "M", those beside "PL" and those inside it. */
  datatype Base = Base(header: seq<Field>, sub: seq<Field>, payload: seq<Field>)

  predicate ValidMid(mid: string) {
    0 < |mid| <= MAX_MID_SIZE
  }

  function OptionalNumber(name: string, value: Option<int>): seq<Field> {
    if value.Some? then [Field(name, Number(value.value))] else []
  }

  predicate NamesDog(r: Request) {
    r.dogSsid.Some? && r.dogSsid.value != ""
  }

  function DogFields(r: Request): seq<Field> {
    if !NamesDog(r) then []
    else [Field("DOG_SSID", Str(r.dogSsid.value))]
         + if r.inSafeZone.Some? then [Field("DOG_IN_SAFE_ZONE", Bool(r.inSafeZone.value))] else []
  }

  function BaseOf(mid: string, r: Request): (b: Base)
    ensures b.payload != []
  {
    Base([Field("P", Number(REALTIME_PROTOCOL_VERSION)), Field("MID", Str(mid)),
          Field("MK", Str(CONFIG_IOT_MQTT_REGION_ID)), Field("B", Number(CONFIG_IOT_MQTT_BRAND_ID)),
          Field("T", Number(MQTT_MESSAGE_TYPE_NEAR_REAL_TIME))],
         [Field("SUB", Number(WHERES_MY_DOG_SUB_TYPE))],
         [Field("SENT_AT", Number(SENT_AT))] + OptionalNumber("CELLID", r.cellId)
         + OptionalNumber("TRACKING_AREA", r.trackingArea) + DogFields(r)
         + [Field("CRON", Number(r.now)), Field("FMD_STATUS", Number(r.fmdStatus))])
  }

  /** The fields are added one by one. */
  method StartMessage(mid: string, r: Request) returns (b: Base)
    ensures b == BaseOf(mid, r)
  {
    var topLevel := new Node([]);
    topLevel.Add("P", Number(REALTIME_PROTOCOL_VERSION));
    topLevel.Add("MID", Str(mid));
    topLevel.Add("MK", Str(CONFIG_IOT_MQTT_REGION_ID));
    topLevel.Add("B", Number(CONFIG_IOT_MQTT_BRAND_ID));
    topLevel.Add("T", Number(MQTT_MESSAGE_TYPE_NEAR_REAL_TIME));
    var m := new Node([]);
    m.Add("SUB", Number(WHERES_MY_DOG_SUB_TYPE));
    var payload := StartPayload(r);
    b := Base(topLevel.fields, m.fields, payload);
  }

  method StartPayload(r: Request) returns (fields: seq<Field>)
    ensures fields == BaseOf("", r).payload
  {
    var payload := new Node([]);
    payload.Add("SENT_AT", Number(SENT_AT));
    if r.cellId.Some? {
      payload.Add("CELLID", Number(r.cellId.value));
    }
    assert payload.fields == [Field("SENT_AT", Number(SENT_AT))] + OptionalNumber("CELLID", r.cellId);
    ghost var before := payload.fields;
    if r.trackingArea.Some? {
      payload.Add("TRACKING_AREA", Number(r.trackingArea.value));
    }
    assert payload.fields == before + OptionalNumber("TRACKING_AREA", r.trackingArea);
    before := payload.fields;
    if r.dogSsid.Some? && |r.dogSsid.value| > 0 {
      payload.Add("DOG_SSID", Str(r.dogSsid.value));
      if r.inSafeZone.Some? {
        payload.Add("DOG_IN_SAFE_ZONE", Bool(r.inSafeZone.value));
      }
    }
    assert payload.fields == before + DogFields(r);
    payload.Add("CRON", Number(r.now));
    payload.Add("FMD_STATUS", Number(r.fmdStatus));
    fields := payload.fields;
    hide OptionalNumber, DogFields;
  }

  function Document(b: Base, payload: seq<Field>): Json {
    Object(b.header + [Field("M", Object(b.sub + [Field("PL", Object(payload))]))])
  }

  lemma ObjectWidth(before: seq<Field>, name: string, value: Json)
    ensures Width(Object(before + [Field(name, value)])) ==
              2 + FieldsWidth(before) + |before| + |name| + 3 + Width(value)
  {
    FieldsWidthConcat(before, [Field(name, value)]);
    FieldsWidthOne(Field(name, value));
  }

  /** Everything added to the payload shows up once in the printed message, with one comma each. */
  lemma DocumentGrows(b: Base, p: seq<Field>, added: seq<Field>)
    requires p != []
    ensures Width(Document(b, p + added)) == Width(Document(b, p)) + FieldsWidth(added) + |added|
  {
    var small, large := Object(p), Object(p + added);
    assert Width(large) == Width(small) + FieldsWidth(added) + |added| by {
      FieldsWidthConcat(p, added);
    }
    ObjectWidth(b.sub, "PL", small);
    ObjectWidth(b.sub, "PL", large);
    ObjectWidth(b.header, "M", Object(b.sub + [Field("PL", small)]));
    ObjectWidth(b.header, "M", Object(b.sub + [Field("PL", large)]));
    hide Width, FieldsWidth;
  }

  /** The bytes a message has left before the arrays are added. */
  function FreeSpace(b: Base): int {
    CONFIG_MAX_MQTT_MSG_SIZE - PADDING - Width(Document(b, b.payload))
  }

  // What the fields of a message take up before the arrays are added.

  function OptionalWidth(value: Option<int>, name: nat): nat {
    if value.Some? then name + NumberWidth(value.value) else 0
  }

  function DogWidth(r: Request): nat {
    if !NamesDog(r) then 0
    else 14 + |r.dogSsid.value| + if r.inSafeZone.None? then 0 else if r.inSafeZone.value then 24 else 25
  }

  function BaseWidth(mid: string, r: Request): nat {
    105 + |mid| + OptionalWidth(r.cellId, 10) + OptionalWidth(r.trackingArea, 17) + DogWidth(r)
    + NumberWidth(r.now) + NumberWidth(r.fmdStatus)
  }

  /** Printed with a comma behind it. */
  function Span(fields: seq<Field>): nat {
    FieldsWidth(fields) + |fields|
  }

  lemma SpanConcat(a: seq<Field>, b: seq<Field>)
    ensures Span(a + b) == Span(a) + Span(b)
  {
    FieldsWidthConcat(a, b);
  }

  lemma SpanOne(name: string, value: Json)
    ensures Span([Field(name, value)]) == |name| + 4 + Width(value)
  {
    FieldsWidthOne(Field(name, value));
  }

  lemma SmallNumbers()
    ensures NumberWidth(REALTIME_PROTOCOL_VERSION) == 1 && NumberWidth(CONFIG_IOT_MQTT_BRAND_ID) == 2
    ensures NumberWidth(MQTT_MESSAGE_TYPE_NEAR_REAL_TIME) == 2 && NumberWidth(WHERES_MY_DOG_SUB_TYPE) == 2
    ensures NumberWidth(SENT_AT) == 10
  {
  }

  lemma HeaderSpan(mid: string, r: Request)
    ensures Span(BaseOf(mid, r).header) == 39 + |mid| && Span(BaseOf(mid, r).sub) == 9
  {
    SmallNumbers();
    SpanOne("P", Number(REALTIME_PROTOCOL_VERSION));
    SpanOne("MID", Str(mid));
    SpanOne("MK", Str(CONFIG_IOT_MQTT_REGION_ID));
    SpanOne("B", Number(CONFIG_IOT_MQTT_BRAND_ID));
    SpanOne("T", Number(MQTT_MESSAGE_TYPE_NEAR_REAL_TIME));
    SpanOne("SUB", Number(WHERES_MY_DOG_SUB_TYPE));
    hide NumberWidth, Span;
    var f := BaseOf(mid, r).header;
    assert f == [f[0]] + ([f[1]] + ([f[2]] + ([f[3]] + [f[4]])));
    SpanConcat([f[3]], [f[4]]);
    SpanConcat([f[2]], [f[3]] + [f[4]]);
    SpanConcat([f[1]], [f[2]] + ([f[3]] + [f[4]]));
    SpanConcat([f[0]], [f[1]] + ([f[2]] + ([f[3]] + [f[4]])));
  }

  lemma OptionalSpan(name: string, value: Option<int>)
    ensures Span(OptionalNumber(name, value)) == OptionalWidth(value, |name| + 4)
  {
    if value.Some? {
      SpanOne(name, Number(value.value));
    }
  }

  lemma DogSpan(r: Request)
    ensures Span(DogFields(r)) == DogWidth(r)
  {
    if NamesDog(r) {
      SpanOne("DOG_SSID", Str(r.dogSsid.value));
      assert |"DOG_SSID"| == 8 && |"DOG_IN_SAFE_ZONE"| == 16;
      PlusNothing([Field("DOG_SSID", Str(r.dogSsid.value))]);
      if r.inSafeZone.Some? {
        SpanOne("DOG_IN_SAFE_ZONE", Bool(r.inSafeZone.value));
        SpanConcat([Field("DOG_SSID", Str(r.dogSsid.value))], [Field("DOG_IN_SAFE_ZONE", Bool(r.inSafeZone.value))]);
      }
      hide Span;
    }
  }

  lemma PayloadSpan(mid: string, r: Request)
    ensures Span(BaseOf(mid, r).payload) == 43 + OptionalWidth(r.cellId, 10) + OptionalWidth(r.trackingArea, 17)
                                            + DogWidth(r) + NumberWidth(r.now) + NumberWidth(r.fmdStatus)
  {
    SmallNumbers();
    OptionalSpan("CELLID", r.cellId);
    OptionalSpan("TRACKING_AREA", r.trackingArea);
    DogSpan(r);
    SpanOne("SENT_AT", Number(SENT_AT));
    SpanOne("CRON", Number(r.now));
    SpanOne("FMD_STATUS", Number(r.fmdStatus));
    var a, b, c, d := [Field("SENT_AT", Number(SENT_AT))], OptionalNumber("CELLID", r.cellId),
                      OptionalNumber("TRACKING_AREA", r.trackingArea), DogFields(r);
    var e, f := [Field("CRON", Number(r.now))], [Field("FMD_STATUS", Number(r.fmdStatus))];
    hide NumberWidth, Span, OptionalNumber, OptionalWidth, DogFields, DogWidth;
    assert e + f == [Field("CRON", Number(r.now)), Field("FMD_STATUS", Number(r.fmdStatus))];
    SpanConcat(a, b);
    SpanConcat(a + b, c);
    SpanConcat(a + b + c, d);
    SpanConcat(e, f);
    SpanConcat(a + b + c + d, e + f);
  }

  lemma BaseWidthIs(mid: string, r: Request)
    ensures Width(Document(BaseOf(mid, r), BaseOf(mid, r).payload)) == BaseWidth(mid, r)
  {
    var b := BaseOf(mid, r);
    var payload := Object(b.payload);
    var m := Object(b.sub + [Field("PL", payload)]);
    HeaderSpan(mid, r);
    PayloadSpan(mid, r);
    assert Width(payload) == 1 + Span(b.payload);
    ObjectWidth(b.sub, "PL", payload);
    ObjectWidth(b.header, "M", m);
    hide Width, NumberWidth, OptionalWidth, DogWidth, BaseOf;
  }

  /** The ranges of the C types the arguments have; an access point's name has at most 32 bytes, which
      print as up to six characters each, and numbers of up to 15 digits print as they are. */
  predicate Representable(r: Request) {
    && (r.cellId.Some? ==> -0x8000_0000 <= r.cellId.value < 0x8000_0000)
    && (r.trackingArea.Some? ==> -0x8000_0000 <= r.trackingArea.value < 0x8000_0000)
    && (r.dogSsid.Some? ==> |r.dogSsid.value| <= 6 * 32)
    && r.now < 1_000_000_000_000_000 && r.fmdStatus <= 5
  }

  lemma IntWidth(n: int)
    requires -0x8000_0000 <= n < 0x8000_0000
    ensures NumberWidth(n) <= 11
  {
    assert Tens(10) == 10_000_000_000;
    DecimalLength(if n < 0 then -n else n, 10);
  }

  /** A message has more than 1500 bytes free for its arrays. */
  lemma MuchIsFree(mid: string, r: Request)
    requires ValidMid(mid) && Representable(r)
    ensures FreeSpace(BaseOf(mid, r)) > 1500
  {
    BaseWidthIs(mid, r);
    assert Tens(15) == 1_000_000_000_000_000;
    DecimalLength(r.now, 15);
    IntWidth(r.fmdStatus);
    if r.cellId.Some? {
      IntWidth(r.cellId.value);
    }
    if r.trackingArea.Some? {
      IntWidth(r.trackingArea.value);
    }
    hide Width, BaseOf, Document, Tens;
  }

  datatype Built = Built(message: Json, ssids: Emission<WifiObj>, gps: Emission<Fix>, ret: int)

  function CronField(queue: seq<WifiObj>, scanTime: nat): seq<Field> {
    if queue == [] then [] else [Field("SSID_CRON", Number(scanTime))]
  }

  function CronCharge(queue: seq<WifiObj>): int {
    if queue == [] then 0 else SSID_CRON_CHARGE
  }

  function Build(b: Base, scanTime: nat, queue: seq<WifiObj>, sendGps: bool, fixes: seq<Fix>): Built {
    var s := EmitSsids(queue, FreeSpace(b) - CronCharge(queue));
    var g := if sendGps then EmitGps(fixes, s.remaining) else Emission([], fixes, false, s.remaining, 0);
    Built(Document(b, b.payload + (CronField(queue, scanTime) + (ArrayField("SSIDS", s.added, SsidEntries(s.taken))
                                                                  + ArrayField("GPS", g.added, Entries(g.taken))))),
          s, g, if s.ret > 0 || g.ret > 0 then 1 else 0)
  }

  /** The second half of json_wheresmydog: the arrays are added in order of priority. */
  method AddArrays(b: Base, scanTime: nat, fifo: Fifo<WifiObj>, sendGps: bool, gps: GpsData)
    returns (ret: int, message: Json)
    modifies fifo, gps
    ensures var built := Build(b, scanTime, old(fifo.items), sendGps, old(gps.fifo));
            && ret == built.ret && message == built.message
            && fifo.items == built.ssids.left && gps.fifo == built.gps.left
    ensures old(gps.Valid()) && NoZero(old(gps.fifo)) ==> gps.Valid()
  {
    ghost var built := Build(b, scanTime, fifo.items, sendGps, gps.fifo);
    BuildParts(b, scanTime, fifo.items, sendGps, gps.fifo);
    ghost var cron := CronField(fifo.items, scanTime);
    ghost var ssids := ArrayField("SSIDS", built.ssids.added, SsidEntries(built.ssids.taken));
    ret := 0;
    var payload := new Node(b.payload);
    var remaining := CONFIG_MAX_MQTT_MSG_SIZE - PADDING - Width(Document(b, payload.fields));
    if !fifo.IsEmpty() {
      payload.Add("SSID_CRON", Number(scanTime));
      remaining := remaining - SSID_CRON_CHARGE;
    }
    PlusNothing(b.payload);
    assert payload.fields == b.payload + cron;
    hide EmitSsids, EmitGps, Document, Width, CountAfter, Build, ArrayField, SsidEntries, Entries;
    var more;
    more, remaining := AddSsidsToJson(payload, fifo, remaining);
    if more > 0 {
      ret := 1;
    }
    assert payload.fields == b.payload + cron + ssids;
    if sendGps {
      GpsStaysValid(gps.fifo, remaining);
      more, remaining := gps.GetJsonList(payload, remaining);
      if more > 0 {
        ret := 1;
      }
    }
    message := Document(b, payload.fields);
  }

  /** The result and, unless the arguments are refused, the message. */
  method JsonWheresMyDog(mid: string, requestId: Option<string>, r: Request, scanTime: nat, fifo: Fifo<WifiObj>,
                         sendGps: bool, gps: GpsData)
    returns (ret: int, json: Option<Json>)
    modifies fifo, gps
    ensures 1 <= |mid| <= 12 && requestId.Some? ==>
              var built := Build(BaseOf(mid, r), scanTime, old(fifo.items), sendGps, old(gps.fifo));
              && ret == built.ret && json == Some(built.message)
              && fifo.items == built.ssids.left && gps.fifo == built.gps.left
    ensures !(1 <= |mid| <= 12 && requestId.Some?) ==>
              ret == -22 && json == None && fifo.items == old(fifo.items) && gps.fifo == old(gps.fifo)
    ensures old(gps.Valid()) && NoZero(old(gps.fifo)) ==> gps.Valid()
  {
    if |mid| == 0 || |mid| > MAX_MID_SIZE {
      return -EINVAL, None;
    }
    if requestId.None? {
      return -EINVAL, None;
    }
    var b := StartMessage(mid, r);
    var message;
    ret, message := AddArrays(b, scanTime, fifo, sendGps, gps);
    json := Some(message);
  }

  lemma PlusNothing<T>(a: seq<T>)
    ensures a + [] == a
  {
  }

  /** The message as it grows, array by array. */
  lemma BuildParts(b: Base, scanTime: nat, queue: seq<WifiObj>, sendGps: bool, fixes: seq<Fix>)
    ensures var built := Build(b, scanTime, queue, sendGps, fixes);
            var before := b.payload + CronField(queue, scanTime)
                          + ArrayField("SSIDS", built.ssids.added, SsidEntries(built.ssids.taken));
            && built.ssids == EmitSsids(queue, FreeSpace(b) - CronCharge(queue))
            && (sendGps ==>
                  && built.gps == EmitGps(fixes, built.ssids.remaining)
                  && built.message == Document(b, before + ArrayField("GPS", built.gps.added, Entries(built.gps.taken))))
            && (!sendGps ==> built.gps.left == fixes && built.gps.ret == 0 && built.message == Document(b, before))
            && built.ret == if built.ssids.ret > 0 || (sendGps && built.gps.ret > 0) then 1 else 0
  {
    var s := EmitSsids(queue, FreeSpace(b) - CronCharge(queue));
    var g := if sendGps then EmitGps(fixes, s.remaining) else Emission([], fixes, false, s.remaining, 0);
    Joined(b.payload, CronField(queue, scanTime), ArrayField("SSIDS", s.added, SsidEntries(s.taken)),
           ArrayField("GPS", g.added, Entries(g.taken)));
    hide EmitSsids, EmitGps, Document, FreeSpace, SsidEntries, Entries, CronField;
  }

  lemma Joined<T>(a: seq<T>, b: seq<T>, c: seq<T>, d: seq<T>)
    ensures ((a + b) + c) + d == a + (b + (c + d))
    ensures ((a + b) + c) + [] == (a + b) + c
  {
  }

  lemma GpsStaysValid(fixes: seq<Fix>, remaining: int)
    ensures NoZero(fixes) ==> CountAfter(fixes, |fixes|, remaining) == |EmitGps(fixes, remaining).left|
    ensures |EmitGps(fixes, remaining).left| <= |fixes|
  {
    if NoZero(fixes) && fixes != [] && remaining >= GPS_MINIMUM {
      var k := ReportTakes(fixes, remaining);
    }
  }

  // ----- The budget -----

  /** The commas between array entries are charged to nobody. */
  function Uncharged(built: Built): nat {
    (if built.ssids.added then Commas(|built.ssids.taken|) else 0)
    + if built.gps.added then Commas(|built.gps.taken|) else 0
  }

  /** What the charge for the scan time exceeds its printed form by. */
  function CronSlack(queue: seq<WifiObj>, scanTime: nat): int {
    if queue == [] then 0 else SSID_CRON_CHARGE - 13 - NumberWidth(scanTime)
  }

  lemma ArrayWidth(name: string, added: bool, items: seq<Json>)
    ensures var f := ArrayField(name, added, items);
            FieldsWidth(f) + |f| == if added then |name| + 6 + ItemsWidth(items) + Commas(|items|) else 0
  {
    if added {
      FieldsWidthOne(Field(name, Array(items)));
    }
  }

  lemma CronWidth(queue: seq<WifiObj>, scanTime: nat)
    ensures var f := CronField(queue, scanTime);
            FieldsWidth(f) + |f| == CronCharge(queue) - CronSlack(queue, scanTime)
  {
    if queue != [] {
      FieldsWidthOne(Field("SSID_CRON", Number(scanTime)));
      assert |"SSID_CRON"| == 9;
    }
  }

  lemma SsidCharge(queue: seq<WifiObj>, remaining: int)
    ensures var s := EmitSsids(queue, remaining);
            && remaining - s.remaining == (if s.added then SSIDS_HEADER + ItemsWidth(SsidEntries(s.taken)) else 0)
            && (s.added ==> s.remaining >= 0)
            && s.taken + s.left == queue
            && |s.taken| == |SsidEntries(s.taken)|
  {
    if queue != [] && remaining >= SSIDS_MINIMUM {
      var budget := remaining - SSIDS_HEADER;
      var k := Fit(SsidEntries(queue), budget);
      FitIsLongest(SsidEntries(queue), budget);
      SsidEntriesTake(queue, k);
      hide Width, Fit, SsidEntries;
      assert ItemsWidth(SsidEntries(queue)[..k]) <= budget;
      assert queue[..k] + queue[k..] == queue;
    }
  }

  lemma GpsCharge(queue: seq<Fix>, remaining: int)
    ensures var g := EmitGps(queue, remaining);
            && remaining - g.remaining == (if g.added then GPS_HEADER + ItemsWidth(Entries(g.taken)) else 0)
            && (g.added ==> g.remaining >= 0)
  {
    if queue != [] && remaining >= GPS_MINIMUM {
      var budget := remaining - GPS_HEADER;
      EmitsScan(queue, |queue|, remaining, ScanFrom(queue, budget));
      hide *;
      ScanCharge(queue, budget);
    }
  }

  lemma ScanCharge(queue: seq<Fix>, budget: int)
    requires budget >= 0
    ensures var s := ScanFrom(queue, budget);
            s.remaining == budget - ItemsWidth(Entries(s.taken)) && s.remaining >= 0
  {
    var items := Entries(NonZeros(queue));
    ScanIs(queue, budget);
    hide ScanFrom, Fit, ItemsWidth, Entries, NonZeros, NoneAmong;
    EntriesTake(NonZeros(queue), Fit(items, budget));
    FitIsLongest(items, budget);
    var taken := items[..Fit(items, budget)];
    assert ItemsWidth(taken) <= budget;
  }

  /** Exact accounting: the printed length and the budget left always add up to the budget, plus
      the uncharged commas, less the slack of the scan time.  An array is only added within the
      budget, so what is left is then not negative. */
  lemma Accounting(b: Base, scanTime: nat, queue: seq<WifiObj>, sendGps: bool, fixes: seq<Fix>)
    requires b.payload != []
    ensures var built := Build(b, scanTime, queue, sendGps, fixes);
            && Width(built.message) + built.gps.remaining ==
                 CONFIG_MAX_MQTT_MSG_SIZE - PADDING + Uncharged(built) - CronSlack(queue, scanTime)
            && (built.ssids.added || built.gps.added ==> built.gps.remaining >= 0)
  {
    var built := Build(b, scanTime, queue, sendGps, fixes);
    var r := FreeSpace(b) - CronCharge(queue);
    SsidCharge(queue, r);
    if sendGps {
      GpsCharge(fixes, built.ssids.remaining);
    }
    var c := CronField(queue, scanTime);
    var s := ArrayField("SSIDS", built.ssids.added, SsidEntries(built.ssids.taken));
    var g := ArrayField("GPS", built.gps.added, Entries(built.gps.taken));
    hide Width, FieldsWidth, ItemsWidth, Document, EmitSsids, EmitGps, SsidEntries, Entries, NumberWidth;
    DocumentGrows(b, b.payload, c + (s + g));
    FieldsWidthConcat(c, s + g);
    FieldsWidthConcat(s, g);
    CronWidth(queue, scanTime);
    ArrayWidth("SSIDS", built.ssids.added, SsidEntries(built.ssids.taken));
    ArrayWidth("GPS", built.gps.added, Entries(built.gps.taken));
    assert |"SSIDS"| == 5 && |"GPS"| == 3;
    hide ArrayField, CronField, CronCharge, CronSlack;
  }

  // ----- Sending until nothing more is asked for -----

  const ENTRY_MAXIMUM: int := 117

  /** A message with at least 128 bytes free once the scan time is charged. */
  predicate Roomy(b: Base) {
    b.payload != [] && FreeSpace(b) >= SSIDS_MINIMUM + SSID_CRON_CHARGE
  }

  ghost predicate Small(queue: seq<WifiObj>, fixes: seq<Fix>) {
    && (forall k :: 0 <= k < |queue| ==> Width(SsidEntry(queue[k])) <= ENTRY_MAXIMUM)
    && (forall k :: 0 <= k < |fixes| ==> Width(fixes[k].entry) <= ENTRY_MAXIMUM)
  }

  lemma RoomyLeaves(b: Base, queue: seq<WifiObj>)
    requires Roomy(b)
    ensures b.payload != [] && FreeSpace(b) - CronCharge(queue) >= SSIDS_MINIMUM
  {
    hide FreeSpace;
  }

  /** What the two emitters take from queues of small entries. */
  lemma EmittersTake(queue: seq<WifiObj>, fixes: seq<Fix>, remaining: int, after: int)
    requires Small(queue, fixes) && remaining >= SSIDS_MINIMUM
    ensures var s, g := EmitSsids(queue, remaining), EmitGps(fixes, after);
            && Small(s.left, g.left) && Small(s.left, fixes)
            && s.taken + s.left == queue && |s.left| <= |queue| && |g.left| <= |fixes|
            && (queue != [] ==> |s.left| < |queue|)
            && (queue == [] ==> s.remaining == remaining && s.ret == 0)
            && (s.ret <= 0 ==> s.left == [])
            && (after >= SSIDS_MINIMUM && fixes != [] ==> |g.left| < |fixes|)
            && (g.ret > 0 ==> fixes != [])
  {
    SsidsTakeOne(queue, remaining);
    GpsTakesOne(fixes, after);
    hide Width, SsidEntry, Fit, SsidEntries, ItemsWidth, ScanFrom, Entries;
  }

  /** Whenever a roomy message asks for more, it has taken something from a queue. */
  lemma AskingForMoreTakes(b: Base, scanTime: nat, queue: seq<WifiObj>, sendGps: bool, fixes: seq<Fix>)
    requires Roomy(b) && Small(queue, fixes)
    ensures var built := Build(b, scanTime, queue, sendGps, fixes);
            && Small(built.ssids.left, built.gps.left)
            && |built.ssids.left| <= |queue| && |built.gps.left| <= |fixes|
            && (built.ret > 0 ==> |built.ssids.left| + |built.gps.left| < |queue| + |fixes|)
            && (built.ret <= 0 ==> built.ssids.left == [])
            && built.ssids.taken + built.ssids.left == queue
  {
    hide *;
    var built := Build(b, scanTime, queue, sendGps, fixes);
    RoomyLeaves(b, queue);
    BuildParts(b, scanTime, queue, sendGps, fixes);
    EmittersTake(queue, fixes, FreeSpace(b) - CronCharge(queue), built.ssids.remaining);
    if sendGps {
      assert built.gps == EmitGps(fixes, built.ssids.remaining);
    }
  }

  lemma SsidsTakeOne(queue: seq<WifiObj>, remaining: int)
    requires remaining >= SSIDS_MINIMUM
    requires forall k :: 0 <= k < |queue| ==> Width(SsidEntry(queue[k])) <= ENTRY_MAXIMUM
    ensures var s := EmitSsids(queue, remaining);
            && s.taken + s.left == queue
            && (queue != [] ==> |s.left| < |queue|)
            && (queue == [] ==> s.remaining == remaining)
            && (s.ret <= 0 ==> s.left == [])
            && forall k :: 0 <= k < |s.left| ==> Width(SsidEntry(s.left[k])) <= ENTRY_MAXIMUM
  {
    SsidCharge(queue, remaining);
    if queue != [] {
      assert SsidEntries(queue)[0] == SsidEntry(queue[0]);
      FitUnfold(SsidEntries(queue), remaining - SSIDS_HEADER);
    }
    hide Width, SsidEntry, Fit, SsidEntries, ItemsWidth;
  }

  lemma GpsTakesOne(fixes: seq<Fix>, remaining: int)
    requires forall k :: 0 <= k < |fixes| ==> Width(fixes[k].entry) <= ENTRY_MAXIMUM
    ensures var g := EmitGps(fixes, remaining);
            && |g.left| <= |fixes|
            && (remaining >= SSIDS_MINIMUM && fixes != [] ==> |g.left| < |fixes|)
            && forall k :: 0 <= k < |g.left| ==> Width(g.left[k].entry) <= ENTRY_MAXIMUM
  {
    if fixes != [] && remaining >= GPS_MINIMUM {
      ScanLeft(fixes, remaining - GPS_HEADER);
    }
  }

  lemma {:induction false} ScanLeft(fixes: seq<Fix>, budget: int)
    requires forall k :: 0 <= k < |fixes| ==> Width(fixes[k].entry) <= ENTRY_MAXIMUM
    ensures forall k :: 0 <= k < |ScanFrom(fixes, budget).left| ==>
              Width(ScanFrom(fixes, budget).left[k].entry) <= ENTRY_MAXIMUM
    ensures budget >= ENTRY_MAXIMUM && fixes != [] ==> |ScanFrom(fixes, budget).left| < |fixes|
    decreases |fixes|
  {
    hide Width, Zero;
    if fixes != [] {
      ScanLeft(fixes[1..], budget);
      ScanLeft(fixes[1..], budget - Width(fixes[0].entry));
    }
  }

  /** The messages the driver sends; the n-th one is built on `bases(n)`. */
  ghost function Sent(bases: nat -> Base, n: nat, scanTime: nat, queue: seq<WifiObj>, sendGps: bool,
                      fixes: seq<Fix>): seq<Built>
    requires Small(queue, fixes) && forall k :: Roomy(bases(k))
    decreases |queue| + |fixes|
  {
    AskingForMoreTakes(bases(n), scanTime, queue, sendGps, fixes);
    var built := Build(bases(n), scanTime, queue, sendGps, fixes);
    [built] + if built.ret > 0 then Sent(bases, n + 1, scanTime, built.ssids.left, sendGps, built.gps.left) else []
  }

  ghost function Texts(sent: seq<Built>): seq<Json> {
    if sent == [] then [] else [sent[0].message] + Texts(sent[1..])
  }

  ghost function SentSsids(sent: seq<Built>): seq<WifiObj> {
    if sent == [] then [] else sent[0].ssids.taken + SentSsids(sent[1..])
  }

  ghost function SentFixes(sent: seq<Built>): seq<Fix> {
    if sent == [] then [] else sent[0].gps.taken + SentFixes(sent[1..])
  }

  lemma SentUnfold(bases: nat -> Base, n: nat, scanTime: nat, queue: seq<WifiObj>, sendGps: bool, fixes: seq<Fix>)
    requires Small(queue, fixes) && forall k :: Roomy(bases(k))
    ensures var built := Build(bases(n), scanTime, queue, sendGps, fixes);
            && Small(built.ssids.left, built.gps.left)
            && var rest := if built.ret > 0 then Sent(bases, n + 1, scanTime, built.ssids.left, sendGps, built.gps.left)
                           else [];
               Sent(bases, n, scanTime, queue, sendGps, fixes) == [built] + rest
  {
    hide Build, Small, Roomy;
    AskingForMoreTakes(bases(n), scanTime, queue, sendGps, fixes);
  }

  lemma SentCons(built: Built, rest: seq<Built>)
    ensures Texts([built] + rest) == [built.message] + Texts(rest)
    ensures SentSsids([built] + rest) == built.ssids.taken + SentSsids(rest)
    ensures SentFixes([built] + rest) == built.gps.taken + SentFixes(rest)
  {
    assert ([built] + rest)[1..] == rest;
  }

  /** Sending until no message asks for more drains the queue: the SSIDs arrays of the messages,
      one after the other, are exactly the queue, each entry once and in order. */
  lemma {:induction false} SentDrains(bases: nat -> Base, n: nat, scanTime: nat, queue: seq<WifiObj>, sendGps: bool,
                                      fixes: seq<Fix>)
    requires Small(queue, fixes) && forall k :: Roomy(bases(k))
    ensures SentSsids(Sent(bases, n, scanTime, queue, sendGps, fixes)) == queue
    decreases |queue| + |fixes|
  {
    hide Build, Small, Roomy, Sent;
    var built := Build(bases(n), scanTime, queue, sendGps, fixes);
    SentUnfold(bases, n, scanTime, queue, sendGps, fixes);
    AskingForMoreTakes(bases(n), scanTime, queue, sendGps, fixes);
    if built.ret > 0 {
      SentDrains(bases, n + 1, scanTime, built.ssids.left, sendGps, built.gps.left);
      SentCons(built, Sent(bases, n + 1, scanTime, built.ssids.left, sendGps, built.gps.left));
    } else {
      SentCons(built, []);
    }
  }

  /** The fixes left in the buffer after the last message. */
  ghost function FixesLeft(sent: seq<Built>): seq<Fix>
    requires sent != []
  {
    sent[|sent| - 1].gps.left
  }

  /** The fixes sent are the oldest of the buffer, in order; the rest stays in it. */
  lemma {:induction false} SentFixesAreOldest(bases: nat -> Base, n: nat, scanTime: nat, queue: seq<WifiObj>,
                                              fixes: seq<Fix>)
    requires Small(queue, fixes) && NoZero(fixes) && forall k :: Roomy(bases(k))
    ensures var sent := Sent(bases, n, scanTime, queue, true, fixes);
            sent != [] && SentFixes(sent) + FixesLeft(sent) == fixes
    decreases |queue| + |fixes|
  {
    hide *;
    var built := Build(bases(n), scanTime, queue, true, fixes);
    BuildParts(bases(n), scanTime, queue, true, fixes);
    GpsPartition(fixes, built.ssids.remaining);
    AskingForMoreTakes(bases(n), scanTime, queue, true, fixes);
    SentUnfold(bases, n, scanTime, queue, true, fixes);
    if built.ret > 0 {
      var rest := Sent(bases, n + 1, scanTime, built.ssids.left, true, built.gps.left);
      SentFixesAreOldest(bases, n + 1, scanTime, built.ssids.left, built.gps.left);
      SentCons(built, rest);
      LastCons(built, rest);
      assert built.gps.taken + (SentFixes(rest) + FixesLeft(rest)) == fixes;
      assert (built.gps.taken + SentFixes(rest)) + FixesLeft(rest)
          == built.gps.taken + (SentFixes(rest) + FixesLeft(rest));
    } else {
      SentCons(built, []);
      NoFixes();
      LastCons(built, []);
    }
  }

  lemma LastCons(built: Built, rest: seq<Built>)
    ensures FixesLeft([built] + rest) == if rest == [] then built.gps.left else FixesLeft(rest)
  {
  }

  lemma NoFixes()
    ensures SentFixes([]) == []
  {
  }

  lemma GpsPartition(fixes: seq<Fix>, remaining: int)
    requires NoZero(fixes)
    ensures var g := EmitGps(fixes, remaining);
            g.taken + g.left == fixes && NoZero(g.left)
  {
    if fixes != [] && remaining >= GPS_MINIMUM {
      ScanIsPrefix(fixes, remaining - GPS_HEADER);
      var k := Fit(Entries(fixes), remaining - GPS_HEADER);
      assert fixes[..k] + fixes[k..] == fixes;
      assert forall i :: 0 <= i < |fixes| - k ==> fixes[k..][i] == fixes[k + i];
      hide Fit, ScanFrom, Zero, Entries, ItemsWidth;
    }
  }

  /** A message that starts with less free space takes no SSIDs and does not ask for more either:
      the queue is then left as it is. */
  lemma CrampedLeavesSsids(b: Base, scanTime: nat, queue: seq<WifiObj>)
    requires queue != [] && b.payload != []
    ensures var built := Build(b, scanTime, queue, false, []);
            built.ret == 0 && built.ssids.left == queue <==> FreeSpace(b) - SSID_CRON_CHARGE < SSIDS_MINIMUM
  {
    SsidCharge(queue, FreeSpace(b) - SSID_CRON_CHARGE);
    hide Width, Fit, SsidEntries, ItemsWidth, FreeSpace, Document;
  }

  ghost function Bases(mid: string, requests: nat -> Request): nat -> Base {
    (k: nat) => BaseOf(mid, requests(k))
  }

  lemma AllRoomy(mid: string, requests: nat -> Request)
    requires ValidMid(mid) && forall k :: Representable(requests(k))
    ensures forall k :: Roomy(Bases(mid, requests)(k))
  {
    hide FreeSpace, BaseOf;
    forall k: nat
      ensures Roomy(Bases(mid, requests)(k))
    {
      MuchIsFree(mid, requests(k));
    }
  }

  /** commMgr's loop around json_wheresmydog; `messages` are queued one by one, `requests(n)` are the
      arguments of the n-th call. */
  method SendWheresMyDog(mid: string, requestId: Option<string>, requests: nat -> Request, scanTime: nat,
                         fifo: Fifo<WifiObj>, sendGps: bool, gps: GpsData)
    returns (messages: seq<Json>)
    requires Small(fifo.items, gps.fifo) && forall k :: Representable(requests(k))
    modifies fifo, gps
    ensures ValidMid(mid) && requestId.Some? ==>
              && (forall k :: Roomy(Bases(mid, requests)(k)))
              && var sent := Sent(Bases(mid, requests), 0, scanTime, old(fifo.items), sendGps, old(gps.fifo));
                 && messages == Texts(sent) && fifo.items == []
                 && sent != [] && gps.fifo == FixesLeft(sent)
    ensures !(ValidMid(mid) && requestId.Some?) ==>
              messages == [] && fifo.items == old(fifo.items) && gps.fifo == old(gps.fifo)
  {
    messages := [];
    var n := 0;
    var moreData := 1;
    ghost var valid := ValidMid(mid) && requestId.Some?;
    ghost var bases := Bases(mid, requests);
    if valid {
      AllRoomy(mid, requests);
    }
    ghost var all := if valid then Sent(bases, 0, scanTime, fifo.items, sendGps, gps.fifo) else [];
    while moreData > 0
      invariant Small(fifo.items, gps.fifo)
      invariant !valid ==> messages == [] && fifo.items == old(fifo.items) && gps.fifo == old(gps.fifo)
      invariant valid && moreData > 0 ==>
                  Remaining(messages, Sent(bases, n, scanTime, fifo.items, sendGps, gps.fifo), all)
      invariant valid && moreData <= 0 ==>
                  messages == Texts(all) && fifo.items == [] && all != [] && gps.fifo == FixesLeft(all)
      decreases moreData > 0, |fifo.items| + |gps.fifo|
    {
      hide Build, Small, Roomy, Sent, Texts, Width, BaseOf, Remaining;
      ghost var built := Build(BaseOf(mid, requests(n)), scanTime, fifo.items, sendGps, gps.fifo);
      if valid {
        SentUnfold(bases, n, scanTime, fifo.items, sendGps, gps.fifo);
        AskingForMoreTakes(bases(n), scanTime, fifo.items, sendGps, gps.fifo);
        ghost var rest := if built.ret > 0
                          then Sent(bases, n + 1, scanTime, built.ssids.left, sendGps, built.gps.left) else [];
        OneMoreSent(messages, built, rest, all);
      }
      var json;
      moreData, json := JsonWheresMyDog(mid, requestId, requests(n), scanTime, fifo, sendGps, gps);
      if json.None? {
        return;
      }
      messages := messages + [json.value];
      n := n + 1;
    }
  }

  /** `messages` have been queued and those of `rest` are still to come. */
  ghost predicate Remaining(messages: seq<Json>, rest: seq<Built>, all: seq<Built>) {
    && messages + Texts(rest) == Texts(all)
    && all != [] && (rest != [] ==> FixesLeft(rest) == FixesLeft(all))
  }

  lemma OneMoreSent(messages: seq<Json>, built: Built, rest: seq<Built>, all: seq<Built>)
    requires Remaining(messages, [built] + rest, all)
    ensures Remaining(messages + [built.message], rest, all)
    ensures rest == [] ==> messages + [built.message] == Texts(all) && built.gps.left == FixesLeft(all)
  {
    SentCons(built, rest);
    LastCons(built, rest);
    Pushed(messages, built.message, Texts(rest));
  }

  lemma Pushed<T>(done: seq<T>, x: T, rest: seq<T>)
    ensures done + ([x] + rest) == (done + [x]) + rest
    ensures (done + [x]) + [] == done + [x]
  {
  }

  // ----- What a message says -----

  /** The item names the access point, its signal strength and its channel, and nothing else. */
  predicate SaysNeighbour(item: Json, w: WifiObj) {
    && item.Object? && |item.fields| == 3
    && Under(Some(item), "macAddress") == Some(Str(w.macstr))
    && Under(Some(item), "signalStrength") == Some(Decimals(w.rssi, w.level))
    && Under(Some(item), "channel") == Some(Number(w.channel))
  }

  predicate SayNeighbours(items: seq<Json>, ws: seq<WifiObj>) {
    |items| == |ws| && forall k :: 0 <= k < |items| ==> SaysNeighbour(items[k], ws[k])
  }

  lemma EntrySays(w: WifiObj)
    ensures SaysNeighbour(SsidEntry(w), w)
  {
    assert |"macAddress"| == 10 && |"signalStrength"| == 14 && |"channel"| == 7;
    var f := SsidEntry(w).fields;
    LookUpAt(f, "macAddress", 0);
    LookUpAt(f, "signalStrength", 1);
    LookUpAt(f, "channel", 2);
  }

  lemma {:induction false} EntriesSay(ws: seq<WifiObj>)
    ensures SayNeighbours(SsidEntries(ws), ws)
    decreases |ws|
  {
    hide SaysNeighbour, SsidEntry;
    if ws != [] {
      EntrySays(ws[0]);
      EntriesSay(ws[1..]);
    }
  }

  function First(a: Option<Json>, b: Option<Json>): Option<Json> {
    if a.Some? then a else b
  }

  lemma LookUpParts(a: seq<Field>, b: seq<Field>, name: string)
    ensures LookUp(a + b, name) == First(LookUp(a, name), LookUp(b, name))
  {
    LookUpConcat(a, b, name);
  }

  function When(c: bool, j: Json): Option<Json> {
    if c then Some(j) else None
  }

  lemma ArrayLookUp(field: string, added: bool, items: seq<Json>, name: string)
    ensures LookUp(ArrayField(field, added, items), name) == When(added && field == name, Array(items))
  {
    LookUpOne(Field(field, Array(items)), name);
  }

  lemma CronLookUp(queue: seq<WifiObj>, scanTime: nat, name: string)
    ensures LookUp(CronField(queue, scanTime), name) == When(queue != [] && name == "SSID_CRON", Number(scanTime))
  {
    LookUpOne(Field("SSID_CRON", Number(scanTime)), name);
  }

  lemma OptionalLookUp(field: string, value: Option<int>, name: string)
    ensures LookUp(OptionalNumber(field, value), name) ==
              if value.Some? && field == name then Some(Number(value.value)) else None
  {
    LookUpOne(Field(field, Number(if value.Some? then value.value else 0)), name);
  }

  lemma DogLookUp(r: Request, name: string)
    ensures LookUp(DogFields(r), name) ==
              if NamesDog(r) && name == "DOG_SSID" then Some(Str(r.dogSsid.value))
              else if NamesDog(r) && r.inSafeZone.Some? && name == "DOG_IN_SAFE_ZONE" then Some(Bool(r.inSafeZone.value))
              else None
  {
    if NamesDog(r) {
      var f := Field("DOG_SSID", Str(r.dogSsid.value));
      PlusNothing([f]);
      LookUpOne(f, name);
      if r.inSafeZone.Some? {
        var g := Field("DOG_IN_SAFE_ZONE", Bool(r.inSafeZone.value));
        LookUpParts([f], [g], name);
        LookUpOne(g, name);
      }
      hide LookUp;
    }
  }

  /** The fields of the payload that every message has. */
  function Fixed(r: Request, name: string): Option<Json> {
    First(When(name == "SENT_AT", Number(1919191919)),
    First(if r.cellId.Some? && "CELLID" == name then Some(Number(r.cellId.value)) else None,
    First(if r.trackingArea.Some? && "TRACKING_AREA" == name then Some(Number(r.trackingArea.value)) else None,
    First(LookUp(DogFields(r), name),
    First(When(name == "CRON", Number(r.now)), When(name == "FMD_STATUS", Number(r.fmdStatus)))))))
  }

  lemma PayloadLookUp(mid: string, r: Request, name: string)
    ensures LookUp(BaseOf(mid, r).payload, name) == Fixed(r, name)
  {
    var a, b, c, d := [Field("SENT_AT", Number(SENT_AT))], OptionalNumber("CELLID", r.cellId),
                      OptionalNumber("TRACKING_AREA", r.trackingArea), DogFields(r);
    var e, f := [Field("CRON", Number(r.now))], [Field("FMD_STATUS", Number(r.fmdStatus))];
    assert e + f == [Field("CRON", Number(r.now)), Field("FMD_STATUS", Number(r.fmdStatus))];
    LookUpOne(a[0], name);
    OptionalLookUp("CELLID", r.cellId, name);
    OptionalLookUp("TRACKING_AREA", r.trackingArea, name);
    LookUpOne(e[0], name);
    LookUpOne(f[0], name);
    assert BaseOf(mid, r).payload == a + b + c + d + (e + f);
    hide LookUp, OptionalNumber, DogFields;
    LookUpParts(e, f, name);
    LookUpParts(a, b, name);
    LookUpParts(a + b, c, name);
    LookUpParts(a + b + c, d, name);
    LookUpParts(a + b + c + d, e + f, name);
  }

  /** The payload with its arrays. */
  lemma GrownLookUp(mid: string, r: Request, cron: seq<Field>, ssids: seq<Field>, gps: seq<Field>, name: string)
    ensures LookUp(BaseOf(mid, r).payload + (cron + (ssids + gps)), name) ==
              First(Fixed(r, name), First(LookUp(cron, name), First(LookUp(ssids, name), LookUp(gps, name))))
  {
    PayloadLookUp(mid, r, name);
    hide LookUp, Fixed, BaseOf;
    LookUpParts(ssids, gps, name);
    LookUpParts(cron, ssids + gps, name);
    LookUpParts(BaseOf(mid, r).payload, cron + (ssids + gps), name);
  }

  /** The fields around "M" and "PL". */
  predicate SaysHeader(message: Json, mid: string, payload: Json) {
    var top := Some(message);
    && Under(top, "P") == Some(Number(1)) && Under(top, "MID") == Some(Str(mid)) && Under(top, "MK") == Some(Str("US"))
    && Under(top, "B") == Some(Number(35)) && Under(top, "T") == Some(Number(29))
    && Under(Under(top, "M"), "SUB") == Some(Number(22)) && Under(Under(top, "M"), "PL") == Some(payload)
  }

  lemma HeaderLookUps(mid: string, r: Request, payload: seq<Field>)
    ensures SaysHeader(Document(BaseOf(mid, r), payload), mid, Object(payload))
  {
    var b := BaseOf(mid, r);
    var m := b.sub + [Field("PL", Object(payload))];
    assert "SUB"[0] == 'S' && "PL"[0] == 'P';
    LookUpAt(m, "SUB", 0);
    LookUpAt(m, "PL", 1);
    var f := b.header + [Field("M", Object(m))];
    assert "P"[0] == 'P' && "B"[0] == 'B' && "T"[0] == 'T' && "M"[0] == 'M';
    LookUpAt(f, "P", 0);
    LookUpAt(f, "MID", 1);
    LookUpAt(f, "MK", 2);
    LookUpAt(f, "B", 3);
    LookUpAt(f, "T", 4);
    LookUpAt(f, "M", 5);
    hide LookUp;
  }

  /** The fields beside the arrays: those asked for, and no others of these names. */
  predicate SaysArguments(payload: Json, r: Request) {
    var pl := Some(payload);
    && Under(pl, "SENT_AT") == Some(Number(1919191919))
    && Under(pl, "CELLID") == (if r.cellId.Some? then Some(Number(r.cellId.value)) else None)
    && Under(pl, "TRACKING_AREA") == (if r.trackingArea.Some? then Some(Number(r.trackingArea.value)) else None)
    && (r.dogSsid.Some? && r.dogSsid.value != "" ==>
          && Under(pl, "DOG_SSID") == Some(Str(r.dogSsid.value))
          && Under(pl, "DOG_IN_SAFE_ZONE") ==
               if r.inSafeZone.Some? then Some(Bool(r.inSafeZone.value)) else None)
    && (r.dogSsid.None? || r.dogSsid.value == "" ==>
          Under(pl, "DOG_SSID") == None && Under(pl, "DOG_IN_SAFE_ZONE") == None)
    && Under(pl, "CRON") == Some(Number(r.now)) && Under(pl, "FMD_STATUS") == Some(Number(r.fmdStatus))
  }

  /** The names have different lengths. */
  lemma Names()
    ensures |"GPS"| == 3 && |"CRON"| == 4 && |"SSIDS"| == 5 && |"CELLID"| == 6 && |"SENT_AT"| == 7 && |"DOG_SSID"| == 8
    ensures |"SSID_CRON"| == 9 && |"FMD_STATUS"| == 10 && |"TRACKING_AREA"| == 13 && |"DOG_IN_SAFE_ZONE"| == 16
  {
  }

  lemma FixedNames(r: Request)
    ensures Fixed(r, "SENT_AT") == Some(Number(1919191919))
    ensures Fixed(r, "CELLID") == if r.cellId.Some? then Some(Number(r.cellId.value)) else None
    ensures Fixed(r, "TRACKING_AREA") == if r.trackingArea.Some? then Some(Number(r.trackingArea.value)) else None
    ensures NamesDog(r) ==> Fixed(r, "DOG_SSID") == Some(Str(r.dogSsid.value))
    ensures NamesDog(r) ==> Fixed(r, "DOG_IN_SAFE_ZONE") ==
                              if r.inSafeZone.Some? then Some(Bool(r.inSafeZone.value)) else None
    ensures !NamesDog(r) ==> Fixed(r, "DOG_SSID") == None && Fixed(r, "DOG_IN_SAFE_ZONE") == None
    ensures Fixed(r, "CRON") == Some(Number(r.now)) && Fixed(r, "FMD_STATUS") == Some(Number(r.fmdStatus))
    ensures Fixed(r, "SSID_CRON") == Fixed(r, "SSIDS") == Fixed(r, "GPS") == None
  {
    Names();
    DogLookUp(r, "SENT_AT");
    DogLookUp(r, "CELLID");
    DogLookUp(r, "TRACKING_AREA");
    DogLookUp(r, "DOG_SSID");
    DogLookUp(r, "DOG_IN_SAFE_ZONE");
    DogLookUp(r, "CRON");
    DogLookUp(r, "FMD_STATUS");
    DogLookUp(r, "SSID_CRON");
    DogLookUp(r, "SSIDS");
    DogLookUp(r, "GPS");
    hide LookUp, DogFields;
  }

  /** The payload of a message, with the entries of its arrays. */
  function Filled(mid: string, r: Request, queue: seq<WifiObj>, scanTime: nat, a: bool, ssids: seq<Json>, g: bool,
                  fixes: seq<Json>): seq<Field>
  {
    BaseOf(mid, r).payload
    + (CronField(queue, scanTime) + (ArrayField("SSIDS", a, ssids) + ArrayField("GPS", g, fixes)))
  }

  lemma FilledLookUp(mid: string, r: Request, queue: seq<WifiObj>, scanTime: nat, a: bool, ssids: seq<Json>, g: bool,
                     fixes: seq<Json>, name: string)
    ensures LookUp(Filled(mid, r, queue, scanTime, a, ssids, g, fixes), name) ==
              First(Fixed(r, name), First(When(queue != [] && name == "SSID_CRON", Number(scanTime)),
              First(When(a && "SSIDS" == name, Array(ssids)), When(g && "GPS" == name, Array(fixes)))))
  {
    GrownLookUp(mid, r, CronField(queue, scanTime), ArrayField("SSIDS", a, ssids), ArrayField("GPS", g, fixes), name);
    CronLookUp(queue, scanTime, name);
    ArrayLookUp("SSIDS", a, ssids, name);
    ArrayLookUp("GPS", g, fixes, name);
    hide LookUp, Fixed, BaseOf, CronField, ArrayField, First, When;
  }

  lemma FilledOther(mid: string, r: Request, queue: seq<WifiObj>, scanTime: nat, a: bool, ssids: seq<Json>, g: bool,
                    fixes: seq<Json>, name: string)
    requires |name| != 3 && |name| != 5 && |name| != 9
    ensures LookUp(Filled(mid, r, queue, scanTime, a, ssids, g, fixes), name) == Fixed(r, name)
  {
    FilledLookUp(mid, r, queue, scanTime, a, ssids, g, fixes, name);
    Names();
    hide LookUp, Fixed, Filled;
  }

  lemma ArgumentLookUps(mid: string, r: Request, queue: seq<WifiObj>, scanTime: nat, a: bool, ssids: seq<Json>,
                        g: bool, fixes: seq<Json>)
    ensures SaysArguments(Object(Filled(mid, r, queue, scanTime, a, ssids, g, fixes)), r)
  {
    FixedNames(r);
    FilledOther(mid, r, queue, scanTime, a, ssids, g, fixes, "SENT_AT");
    FilledOther(mid, r, queue, scanTime, a, ssids, g, fixes, "CELLID");
    FilledOther(mid, r, queue, scanTime, a, ssids, g, fixes, "TRACKING_AREA");
    FilledOther(mid, r, queue, scanTime, a, ssids, g, fixes, "DOG_SSID");
    FilledOther(mid, r, queue, scanTime, a, ssids, g, fixes, "DOG_IN_SAFE_ZONE");
    FilledOther(mid, r, queue, scanTime, a, ssids, g, fixes, "CRON");
    FilledOther(mid, r, queue, scanTime, a, ssids, g, fixes, "FMD_STATUS");
    hide LookUp, Fixed, Filled;
  }

  /** The arrays' own names are none of the others, so nothing hides them. */
  lemma ArrayLookUps(mid: string, r: Request, queue: seq<WifiObj>, scanTime: nat, a: bool, ssids: seq<Json>, g: bool,
                     fixes: seq<Json>)
    ensures var p := Filled(mid, r, queue, scanTime, a, ssids, g, fixes);
            && LookUp(p, "SSID_CRON") == When(queue != [], Number(scanTime))
            && LookUp(p, "SSIDS") == When(a, Array(ssids)) && LookUp(p, "GPS") == When(g, Array(fixes))
  {
    FixedNames(r);
    Names();
    FilledLookUp(mid, r, queue, scanTime, a, ssids, g, fixes, "SSID_CRON");
    FilledLookUp(mid, r, queue, scanTime, a, ssids, g, fixes, "SSIDS");
    FilledLookUp(mid, r, queue, scanTime, a, ssids, g, fixes, "GPS");
    hide LookUp, Fixed, Filled;
  }

  predicate ShowFixes(items: seq<Json>, fixes: seq<Fix>) {
    |items| == |fixes| && forall k :: 0 <= k < |items| ==> items[k] == fixes[k].entry
  }

  lemma {:induction false} FixesShown(fixes: seq<Fix>)
    ensures ShowFixes(Entries(fixes), fixes)
    decreases |fixes|
  {
    if fixes != [] {
      FixesShown(fixes[1..]);
    }
  }

  /** The entries of an array, when there is one. */
  function ItemsOf(j: Option<Json>): seq<Json> {
    if j.Some? && j.value.Array? then j.value.items else []
  }

  function PayloadOf(message: Json): Option<Json> {
    Under(Under(Some(message), "M"), "PL")
  }

  lemma BuiltMessage(mid: string, r: Request, scanTime: nat, queue: seq<WifiObj>, sendGps: bool, fixes: seq<Fix>)
    ensures var built := Build(BaseOf(mid, r), scanTime, queue, sendGps, fixes);
            && built.message == Document(BaseOf(mid, r), Filled(mid, r, queue, scanTime, built.ssids.added,
                 SsidEntries(built.ssids.taken), built.gps.added, Entries(built.gps.taken)))
            && built.ssids == EmitSsids(queue, FreeSpace(BaseOf(mid, r)) - CronCharge(queue))
            && built.gps == (if sendGps then EmitGps(fixes, built.ssids.remaining)
                             else Emission([], fixes, false, built.ssids.remaining, 0))
            && built.ret == if built.ssids.ret > 0 || built.gps.ret > 0 then 1 else 0
  {
    hide Document, EmitSsids, EmitGps, BaseOf, FreeSpace, SsidEntries, Entries, ArrayField, CronField, CronCharge;
  }

  lemma ArraysAdded(queue: seq<WifiObj>, remaining: int, fixes: seq<Fix>, after: int)
    ensures EmitSsids(queue, remaining).added <==> queue != [] && remaining >= 128
    ensures !EmitSsids(queue, remaining).added ==> EmitSsids(queue, remaining).taken == []
    ensures EmitGps(fixes, after).added <==> fixes != [] && after >= 10
    ensures !EmitGps(fixes, after).added ==> EmitGps(fixes, after).taken == []
    ensures EmitSsids(queue, remaining).ret > 0 <==>
              EmitSsids(queue, remaining).added && EmitSsids(queue, remaining).left != []
    ensures EmitGps(fixes, after).ret > 0 <==> EmitGps(fixes, after).added && EmitGps(fixes, after).left != []
  {
    hide Fit, SsidEntries, ItemsWidth, ScanFrom;
  }

  lemma FreeSpaceIs(mid: string, r: Request)
    ensures FreeSpace(BaseOf(mid, r)) == 1970 - BaseWidth(mid, r)
  {
    BaseWidthIs(mid, r);
    hide BaseOf, BaseWidth, Document, Width;
  }

  /** What a message says, field by field: its arguments, and in its arrays the access points and
      fixes taken off the queues, in order.  The SSIDs come with the scan time, and only when at
      least 128 bytes are left for them.  It asks for more if an array could not take all. */
  lemma MessageSays(mid: string, r: Request, scanTime: nat, queue: seq<WifiObj>, sendGps: bool, fixes: seq<Fix>)
    ensures var built := Build(BaseOf(mid, r), scanTime, queue, sendGps, fixes);
            var pl := PayloadOf(built.message);
            && pl.Some? && SaysHeader(built.message, mid, pl.value) && SaysArguments(pl.value, r)
            && Under(pl, "SSID_CRON") == (if queue == [] then None else Some(Number(scanTime)))
            && (Under(pl, "SSIDS").Some? <==> queue != [] && 1970 - BaseWidth(mid, r) - 25 >= 128)
            && (Under(pl, "SSIDS").Some? ==> Under(pl, "SSIDS").value.Array?)
            && built.ssids.taken + built.ssids.left == queue
            && SayNeighbours(ItemsOf(Under(pl, "SSIDS")), built.ssids.taken)
            && (Under(pl, "GPS").Some? <==> sendGps && fixes != [] && built.ssids.remaining >= 10)
            && (Under(pl, "GPS").Some? ==> Under(pl, "GPS").value.Array?)
            && ShowFixes(ItemsOf(Under(pl, "GPS")), built.gps.taken)
            && built.ret == if (Under(pl, "SSIDS").Some? && built.ssids.left != [])
                               || (Under(pl, "GPS").Some? && built.gps.left != []) then 1 else 0
  {
    hide *;
    var b := BaseOf(mid, r);
    var built := Build(b, scanTime, queue, sendGps, fixes);
    BuiltMessage(mid, r, scanTime, queue, sendGps, fixes);
    var p := Filled(mid, r, queue, scanTime, built.ssids.added, SsidEntries(built.ssids.taken), built.gps.added,
                    Entries(built.gps.taken));
    ArgumentLookUps(mid, r, queue, scanTime, built.ssids.added, SsidEntries(built.ssids.taken), built.gps.added,
                    Entries(built.gps.taken));
    ArrayLookUps(mid, r, queue, scanTime, built.ssids.added, SsidEntries(built.ssids.taken), built.gps.added,
                 Entries(built.gps.taken));
    HeaderLookUps(mid, r, p);
    PayloadIs(built.message, mid, p);
    EntriesSay(built.ssids.taken);
    FixesShown(built.gps.taken);
    FreeSpaceIs(mid, r);
    var remaining := FreeSpace(b) - CronCharge(queue);
    ChargeIs(queue);
    SsidCharge(queue, remaining);
    ArraysAdded(queue, remaining, fixes, built.ssids.remaining);
    ArrayItems(p, "SSIDS", built.ssids.added, SsidEntries(built.ssids.taken));
    ArrayItems(p, "GPS", built.gps.added, Entries(built.gps.taken));
    UnderObject(p, "SSID_CRON");
    WhenIs(queue != [], Number(scanTime));
  }

  lemma PayloadIs(message: Json, mid: string, p: seq<Field>)
    requires SaysHeader(message, mid, Object(p))
    ensures PayloadOf(message) == Some(Object(p))
  {
  }

  lemma ChargeIs(queue: seq<WifiObj>)
    ensures CronCharge(queue) == if queue == [] then 0 else 25
  {
  }

  lemma UnderObject(p: seq<Field>, name: string)
    ensures Under(Some(Object(p)), name) == LookUp(p, name)
  {
  }

  lemma WhenIs(c: bool, j: Json)
    ensures When(c, j) == if c then Some(j) else None
  {
  }

  lemma ArrayItems(p: seq<Field>, name: string, added: bool, items: seq<Json>)
    requires LookUp(p, name) == When(added, Array(items)) && (!added ==> items == [])
    ensures var a := Under(Some(Object(p)), name);
            (a.Some? <==> added) && (a.Some? ==> a.value.Array?) && ItemsOf(a) == items
  {
    hide LookUp;
  }

  /** The access points told to the cloud by all messages together. */
  function ToldSsids(messages: seq<Json>): seq<Json> {
    if messages == [] then [] else ItemsOf(Under(PayloadOf(messages[0]), "SSIDS")) + ToldSsids(messages[1..])
  }

  function ToldFixes(messages: seq<Json>): seq<Json> {
    if messages == [] then [] else ItemsOf(Under(PayloadOf(messages[0]), "GPS")) + ToldFixes(messages[1..])
  }

  lemma ToldCons(message: Json, rest: seq<Json>)
    ensures ToldSsids([message] + rest) == ItemsOf(Under(PayloadOf(message), "SSIDS")) + ToldSsids(rest)
    ensures ToldFixes([message] + rest) == ItemsOf(Under(PayloadOf(message), "GPS")) + ToldFixes(rest)
  {
    assert ([message] + rest)[1..] == rest;
  }

  lemma SayConcat(a: seq<Json>, ws: seq<WifiObj>, b: seq<Json>, vs: seq<WifiObj>)
    requires SayNeighbours(a, ws) && SayNeighbours(b, vs)
    ensures SayNeighbours(a + b, ws + vs)
  {
    hide SaysNeighbour;
  }

  lemma ShowConcat(a: seq<Json>, fs: seq<Fix>, b: seq<Json>, gs: seq<Fix>)
    requires ShowFixes(a, fs) && ShowFixes(b, gs)
    ensures ShowFixes(a + b, fs + gs)
  {
  }

  lemma NothingTold()
    ensures SayNeighbours(ToldSsids([]), []) && ShowFixes(ToldFixes([]), [])
    ensures Texts([]) == [] && SentSsids([]) == [] && SentFixes([]) == []
  {
  }

  /** The messages say what was taken off the queues for them. */
  lemma {:induction false} SentSay(mid: string, requests: nat -> Request, n: nat, scanTime: nat, queue: seq<WifiObj>,
                                   sendGps: bool, fixes: seq<Fix>)
    requires ValidMid(mid) && forall k :: Representable(requests(k))
    requires Small(queue, fixes) && forall k :: Roomy(Bases(mid, requests)(k))
    ensures var sent := Sent(Bases(mid, requests), n, scanTime, queue, sendGps, fixes);
            SayNeighbours(ToldSsids(Texts(sent)), SentSsids(sent)) && ShowFixes(ToldFixes(Texts(sent)), SentFixes(sent))
    decreases |queue| + |fixes|
  {
    hide *;
    var bases := Bases(mid, requests);
    BasesAt(mid, requests, n);
    var built := Build(bases(n), scanTime, queue, sendGps, fixes);
    SentUnfold(bases, n, scanTime, queue, sendGps, fixes);
    AskingForMoreTakes(bases(n), scanTime, queue, sendGps, fixes);
    MessageSays(mid, requests(n), scanTime, queue, sendGps, fixes);
    NothingTold();
    var rest := if built.ret > 0 then Sent(bases, n + 1, scanTime, built.ssids.left, sendGps, built.gps.left) else [];
    if built.ret > 0 {
      SentSay(mid, requests, n + 1, scanTime, built.ssids.left, sendGps, built.gps.left);
    }
    SentCons(built, rest);
    ToldCons(built.message, Texts(rest));
    SayConcat(ItemsOf(Under(PayloadOf(built.message), "SSIDS")), built.ssids.taken,
              ToldSsids(Texts(rest)), SentSsids(rest));
    ShowConcat(ItemsOf(Under(PayloadOf(built.message), "GPS")), built.gps.taken,
               ToldFixes(Texts(rest)), SentFixes(rest));
  }

  lemma BasesAt(mid: string, requests: nat -> Request, n: nat)
    ensures Bases(mid, requests)(n) == BaseOf(mid, requests(n))
  {
    hide BaseOf;
  }

  /** All messages together tell the cloud every access point of the queue once, in order, under its
      own address, signal strength and channel. */
  lemma CloudHearsQueue(mid: string, requests: nat -> Request, scanTime: nat, queue: seq<WifiObj>, sendGps: bool,
                        fixes: seq<Fix>)
    requires ValidMid(mid) && (forall k :: Representable(requests(k))) && Small(queue, fixes)
    ensures forall k :: Roomy(Bases(mid, requests)(k))
    ensures SayNeighbours(ToldSsids(Texts(Sent(Bases(mid, requests), 0, scanTime, queue, sendGps, fixes))), queue)
  {
    hide *;
    AllRoomy(mid, requests);
    SentSay(mid, requests, 0, scanTime, queue, sendGps, fixes);
    SentDrains(Bases(mid, requests), 0, scanTime, queue, sendGps, fixes);
  }

  /** And the oldest fixes, in order; those not told stay in the buffer. */
  lemma CloudHearsFixes(mid: string, requests: nat -> Request, scanTime: nat, queue: seq<WifiObj>, fixes: seq<Fix>)
    requires ValidMid(mid) && (forall k :: Representable(requests(k))) && Small(queue, fixes) && NoZero(fixes)
    ensures forall k :: Roomy(Bases(mid, requests)(k))
    ensures var sent := Sent(Bases(mid, requests), 0, scanTime, queue, true, fixes);
            var told := ToldFixes(Texts(sent));
            && sent != [] && |told| <= |fixes| && ShowFixes(told, fixes[..|told|]) && FixesLeft(sent) == fixes[|told|..]
  {
    hide *;
    AllRoomy(mid, requests);
    SentSay(mid, requests, 0, scanTime, queue, true, fixes);
    SentFixesAreOldest(Bases(mid, requests), 0, scanTime, queue, fixes);
    var sent := Sent(Bases(mid, requests), 0, scanTime, queue, true, fixes);
    ShownCount(ToldFixes(Texts(sent)), SentFixes(sent));
    assert fixes[..|SentFixes(sent)|] == SentFixes(sent) && fixes[|SentFixes(sent)|..] == FixesLeft(sent);
  }

  lemma ShownCount(items: seq<Json>, fixes: seq<Fix>)
    requires ShowFixes(items, fixes)
    ensures |items| == |fixes|
  {
  }
}
