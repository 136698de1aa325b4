/** The shadow document of the collar: reporting it and parsing a report back
    (c_modules/json/src/d1_json.c).  A report that was printed is taken to parse as the same tree. */
module ShadowDocument {
  import opened Json
  import opened Options
  import opened Text

  const NUM_ZONES: nat := 5
  const SSID_SIZE: nat := 32
  const MAX_MID_SIZE: nat := 12
  const EINVAL: int := 22
  const ENOMSG: int := 91
  const U16: int := 0x1_0000
  const U32: int := 0x1_0000_0000

  datatype Zone = Zone(idx: int, ssid: string, safe: bool)

  datatype Version = Version(major: int, minor: int, patch: int)

  datatype Doc = Doc(
    sNorm: int, sFmd: int, tNorm: int, tFmd: int, rec: int, q: int, ths: int, dur: int,
    motDet: bool,
    mcuVer: Version, wifiVer: Version, lteVer: Version,
    fotaDuration: int, gpsPoll: int,
    zones: seq<Zone>)

  /** The ranges of the C types. */
  ghost predicate Typed(d: Doc) {
    && 0 <= d.sNorm < U16 && 0 <= d.sFmd < U16 && 0 <= d.tNorm < U16 && 0 <= d.tFmd < U16
    && 0 <= d.rec < U16 && 0 <= d.q < U16 && 0 <= d.ths < U16 && 0 <= d.dur < U16
    && 0 <= d.fotaDuration < U32 && 0 <= d.gpsPoll < U32
    && |d.zones| == NUM_ZONES
    && forall i :: 0 <= i < NUM_ZONES ==> 0 <= d.zones[i].idx < 256 && |d.zones[i].ssid| <= SSID_SIZE
  }

  // ----- cJSON_GetObjectItem -----

  function LowerChar(c: char): char {
    if 'A' <= c <= 'Z' then c - 'A' + 'a' else c
  }

  /** Names are compared without regard to case. */
  predicate SameName(a: string, b: string) {
    |a| == |b| && forall k :: 0 <= k < |a| ==> LowerChar(a[k]) == LowerChar(b[k])
  }

  /** The first field with this name. */
  function GetField(fields: seq<Field>, name: string): Option<Json> {
    if fields == [] then None
    else if SameName(fields[0].name, name) then Some(fields[0].value)
    else GetField(fields[1..], name)
  }

  function GetItem(j: Json, name: string): Option<Json> {
    if j.Object? then GetField(j.fields, name) else None
  }

  predicate Apart(a: string, b: string) {
    |a| != |b| || (|a| > 0 && LowerChar(a[0]) != LowerChar(b[0]))
  }

  lemma {:induction false} GetFieldAt(fields: seq<Field>, name: string, k: nat)
    requires k < |fields| && SameName(fields[k].name, name)
    requires forall j :: 0 <= j < k ==> !SameName(fields[j].name, name)
    ensures GetField(fields, name) == Some(fields[k].value)
    decreases k
  {
    if k > 0 {
      GetFieldAt(fields[1..], name, k - 1);
    }
  }

  /** cJSON_GetNumberValue; None is NaN. */
  function NumberValue(j: Json): Option<int> {
    match j
    case Number(n) => Some(n)
    case Decimals(_, whole) => Some(whole)
    case _ => None
  }

  /** Conversion of a double as the target's hardware does it: saturating to 32 bits, NaN to 0. */
  function ToU32(v: Option<int>): (r: int)
    ensures 0 <= r < U32
    ensures v.Some? && 0 <= v.value < U32 ==> r == v.value
  {
    if v.None? || v.value < 0 then 0 else if v.value >= U32 then U32 - 1 else v.value
  }

  function ToU16(v: Option<int>): (r: int)
    ensures 0 <= r < U16
    ensures v.Some? && 0 <= v.value < U16 ==> r == v.value
  {
    ToU32(v) % U16
  }

  function Clamp(v: int, lo: int, hi: int): int {
    if v < lo then lo else if v > hi then hi else v
  }

  // ----- The report -----

  datatype Extra = Extra(key: string, value: Option<string>)

  datatype Identity = Identity(protocol: int, mid: string, market: string, brand: int, messageType: int)

  function VersionText(v: Version): Json
    requires v.major >= 0 && v.minor >= 0 && v.patch >= 0
  {
    Str(Decimal(v.major) + "." + Decimal(v.minor) + "." + Decimal(v.patch))
  }

  function ZoneObject(z: Zone): Json {
    Object([Field("I", Number(z.idx)), Field("SSID", Str(z.ssid)), Field("SAFE", Bool(z.safe))])
  }

  function ZoneObjects(zones: seq<Zone>): (r: seq<Json>)
    ensures |r| == |zones| && forall i :: 0 <= i < |zones| ==> r[i] == ZoneObject(zones[i])
  {
    if zones == [] then [] else ZoneObjects(zones[..|zones| - 1]) + [ZoneObject(zones[|zones| - 1])]
  }

  function ExtraFields(extras: seq<Extra>): (r: seq<Field>)
    ensures |r| == |extras| && forall i :: 0 <= i < |extras| ==> r[i].name == extras[i].key
  {
    if extras == [] then []
    else
      var e := extras[|extras| - 1];
      ExtraFields(extras[..|extras| - 1]) + [Field(e.key, if e.value.Some? then Str(e.value.value) else Null)]
  }

  function Flag(b: bool): int {
    if b then 1 else 0
  }

  ghost predicate Versioned(d: Doc) {
    && d.mcuVer.major >= 0 && d.mcuVer.minor >= 0 && d.mcuVer.patch >= 0
    && d.wifiVer.major >= 0 && d.wifiVer.minor >= 0 && d.wifiVer.patch >= 0
    && d.lteVer.major >= 0 && d.lteVer.minor >= 0 && d.lteVer.patch >= 0
  }

  function NumberFields(d: Doc): seq<Field> {
    [Field("S_Norm", Number(d.sNorm)), Field("S_FMD", Number(d.sFmd)),
     Field("T_Norm", Number(d.tNorm)), Field("T_FMD", Number(d.tFmd)),
     Field("Rec", Number(d.rec)), Field("Q", Number(d.q)), Field("THS", Number(d.ths))]
  }

  function OtherFields(d: Doc): seq<Field>
    requires Versioned(d)
  {
    [Field("DUR", Number(d.dur)), Field("MOT_DET", Number(Flag(d.motDet))),
     Field("MV", VersionText(d.mcuVer)), Field("WV", VersionText(d.wifiVer)), Field("LV", VersionText(d.lteVer)),
     Field("F_P_DUR", Number(d.fotaDuration)), Field("GPS_PER", Number(d.gpsPoll))]
  }

  /** The fields of the report before the extra ones. */
  function FixedFields(d: Doc): (r: seq<Field>)
    requires Versioned(d)
    ensures |r| == 14
    ensures forall k :: 0 <= k < 7 ==> r[k] == NumberFields(d)[k] && r[7 + k] == OtherFields(d)[k]
  {
    NumberFields(d) + OtherFields(d)
  }

  function ReportFields(d: Doc, extras: seq<Extra>): seq<Field>
    requires Versioned(d)
  {
    FixedFields(d) + ExtraFields(extras) + [Field("ZONES", Array(ZoneObjects(d.zones)))]
  }

  function Report(id: Identity, d: Doc, extras: seq<Extra>): Json
    requires Versioned(d)
  {
    Object([Field("P", Number(id.protocol)), Field("MID", Str(id.mid)), Field("MK", Str(id.market)),
            Field("B", Number(id.brand)), Field("T", Number(id.messageType)),
            Field("M", Object(ReportFields(d, extras)))])
  }

  method AddNumberFields(m: Node, d: Doc)
    requires m.fields == []
    modifies m
    ensures m.fields == NumberFields(d)
  {
    m.Add("S_Norm", Number(d.sNorm));
    m.Add("S_FMD", Number(d.sFmd));
    m.Add("T_Norm", Number(d.tNorm));
    m.Add("T_FMD", Number(d.tFmd));
    m.Add("Rec", Number(d.rec));
    m.Add("Q", Number(d.q));
    m.Add("THS", Number(d.ths));
  }

  method AddOtherFields(m: Node, d: Doc)
    requires Versioned(d)
    modifies m
    ensures m.fields == old(m.fields) + OtherFields(d)
  {
    m.Add("DUR", Number(d.dur));
    m.Add("MOT_DET", Number(Flag(d.motDet)));
    m.Add("MV", VersionText(d.mcuVer));
    m.Add("WV", VersionText(d.wifiVer));
    m.Add("LV", VersionText(d.lteVer));
    m.Add("F_P_DUR", Number(d.fotaDuration));
    m.Add("GPS_PER", Number(d.gpsPoll));
  }

  method AddExtras(m: Node, extras: seq<Extra>)
    modifies m
    ensures m.fields == old(m.fields) + ExtraFields(extras)
  {
    for i := 0 to |extras|
      invariant m.fields == old(m.fields) + ExtraFields(extras[..i])
    {
      var e := extras[i];
      assert extras[..i + 1][..i] == extras[..i];
      if e.value.Some? {
        m.Add(e.key, Str(e.value.value));
      } else {
        m.Add(e.key, Null);
      }
    }
    assert extras[..|extras|] == extras;
  }

  method AddZones(m: Node, zones: seq<Zone>)
    requires |zones| == NUM_ZONES
    modifies m
    ensures m.fields == old(m.fields) + [Field("ZONES", Array(ZoneObjects(zones)))]
  {
    ghost var before := m.fields;
    m.Add("ZONES", Array([]));
    for i := 0 to NUM_ZONES
      invariant m.fields == before + [Field("ZONES", Array(ZoneObjects(zones[..i])))]
    {
      assert zones[..i + 1][..i] == zones[..i];
      var z := zones[i];
      m.AddItem(Object([Field("I", Number(z.idx)), Field("SSID", Str(z.ssid)), Field("SAFE", Bool(z.safe))]),
                before, "ZONES", ZoneObjects(zones[..i]));
    }
    assert zones[..NUM_ZONES] == zones;
  }

  /** Nothing for a machine id of the wrong length. */
  method JsonShadowReport(id: Identity, d: Doc, extras: seq<Extra>) returns (json: Option<Json>)
    requires |d.zones| == NUM_ZONES && Versioned(d)
    ensures json == if 1 <= |id.mid| <= 12 then Some(Report(id, d, extras)) else None
  {
    if |id.mid| == 0 || |id.mid| > MAX_MID_SIZE {
      return None;
    }
    var m := new Node([]);
    AddNumberFields(m, d);
    AddOtherFields(m, d);
    hide NumberFields, OtherFields, ExtraFields, ZoneObjects;
    AddExtras(m, extras);
    AddZones(m, d.zones);
    json := Some(Object([Field("P", Number(id.protocol)), Field("MID", Str(id.mid)), Field("MK", Str(id.market)),
                         Field("B", Number(id.brand)), Field("T", Number(id.messageType)),
                         Field("M", Object(m.fields))]));
  }

  // ----- Parsing -----

  /** A number taken over into a 16-bit field and clamped; the default when there is none. */
  function Clamped16(m: seq<Field>, name: string, other: int, lo: int, hi: int): int {
    var j := GetField(m, name);
    if j.None? then other else Clamp(ToU16(NumberValue(j.value)), lo, hi)
  }

  function Number32(m: seq<Field>, name: string, other: int): int {
    var j := GetField(m, name);
    if j.None? then other else ToU32(NumberValue(j.value))
  }

  /** Conversion of a double to bool: everything but zero, so a fraction and NaN too, gives true.  In a
      parsed tree only numbers that are not whole are Decimals. */
  predicate ToBool(j: Json) {
    !(j.Number? && j.n == 0)
  }

  function FlagOf(m: seq<Field>, name: string, other: bool): bool {
    var j := GetField(m, name);
    if j.None? then other else ToBool(j.value)
  }

  function Truncated(s: string): string {
    if |s| > SSID_SIZE then s[..SSID_SIZE] else s
  }

  /** One entry of "ZONES". */
  function ParseZone(zones: seq<Zone>, z: Json): (r: seq<Zone>)
    requires |zones| == NUM_ZONES
    ensures |r| == NUM_ZONES
  {
    var i := GetItem(z, "I");
    if i.None? || NumberValue(i.value).None? then zones
    else
      var di := NumberValue(i.value).value;
      var ssid, safe := GetItem(z, "SSID"), GetItem(z, "SAFE");
      if di < 0 || di >= NUM_ZONES || (ssid.None? && safe.None?) then zones
      else if ssid.None? || !ssid.value.Str? then zones[di := zones[di].(idx := di)]
      else if safe.None? || !safe.value.Bool? then zones[di := zones[di].(idx := di, ssid := Truncated(ssid.value.s))]
      else zones[di := Zone(di, Truncated(ssid.value.s), safe.value.b)]
  }

  function ParseZones(zones: seq<Zone>, items: seq<Json>): (r: seq<Zone>)
    requires |zones| == NUM_ZONES
    ensures |r| == NUM_ZONES
  {
    if items == [] then zones
    else ParseZone(ParseZones(zones, items[..|items| - 1]), items[|items| - 1])
  }

  /** cJSON_ArrayForEach visits the children of an array or object, and nothing else. */
  function Children(j: Json): seq<Json> {
    match j
    case Array(items) => items
    case Object(fields) => Values(fields)
    case _ => []
  }

  function Values(fields: seq<Field>): seq<Json> {
    if fields == [] then [] else [fields[0].value] + Values(fields[1..])
  }

  function ZonesOf(m: seq<Field>, prior: seq<Zone>): (r: seq<Zone>)
    requires |prior| == NUM_ZONES
    ensures |r| == NUM_ZONES
  {
    var j := GetField(m, "ZONES");
    if j.None? then prior else ParseZones(prior, Children(j.value))
  }

  const NO_VERSION := Version(0, 0, 0)

  function Defaults(initial: Doc, prior: Doc): Doc {
    prior.(mcuVer := NO_VERSION, wifiVer := NO_VERSION, lteVer := initial.lteVer.(major := 0))
  }

  /** The document parsed from the fields of "M"; `initial` is what the new document held before:
      two parts of its LTE version are never initialised. */
  function Parsed(m: seq<Field>, initial: Doc, prior: Doc): Doc
    requires |prior.zones| == NUM_ZONES
  {
    Doc(Clamped16(m, "S_Norm", prior.sNorm, 10, 65534), Clamped16(m, "S_FMD", prior.sFmd, 10, 65534),
        Clamped16(m, "T_Norm", prior.tNorm, 1, 100), Clamped16(m, "T_FMD", prior.tFmd, 1, 100),
        Clamped16(m, "Rec", prior.rec, 10, 65534), Clamped16(m, "Q", prior.q, 1, 65534),
        Clamped16(m, "THS", prior.ths, 0, 7), Clamped16(m, "DUR", prior.dur, 0, 65535),
        FlagOf(m, "MOT_DET", prior.motDet),
        NO_VERSION, NO_VERSION, initial.lteVer.(major := 0),
        Number32(m, "F_P_DUR", prior.fotaDuration), Number32(m, "GPS_PER", prior.gpsPoll),
        ZonesOf(m, prior.zones))
  }

  /** Whether "M" holds a value the collar cares about. */
  predicate Interesting(m: seq<Field>) {
    || GetField(m, "S_Norm").Some? || GetField(m, "S_FMD").Some? || GetField(m, "T_Norm").Some?
    || GetField(m, "T_FMD").Some? || GetField(m, "Rec").Some? || GetField(m, "Q").Some?
    || GetField(m, "THS").Some? || GetField(m, "DUR").Some? || GetField(m, "F_P_DUR").Some?
    || GetField(m, "GPS_PER").Some? || GetField(m, "MOT_DET").Some? || GetField(m, "ZONES").Some?
  }

  datatype Outcome = Outcome(ret: int, doc: Doc)

  /** `json` is None when the text does not parse. */
  function ParseReport(json: Option<Json>, initial: Doc, prior: Doc): Outcome
    requires |prior.zones| == NUM_ZONES
  {
    if json.None? then Outcome(-ENOMSG, Defaults(initial, prior))
    else
      var m := GetItem(json.value, "M");
      if m.None? then Outcome(-EINVAL, Defaults(initial, prior))
      else if !m.value.Object? then Outcome(-EINVAL, Defaults(initial, prior))
      else Outcome(if Interesting(m.value.fields) then 0 else -EINVAL, Parsed(m.value.fields, initial, prior))
  }

  /** The document structure that json_parse_shadow_report fills. */
  class ShadowDoc {
    var sNorm: int
    var sFmd: int
    var tNorm: int
    var tFmd: int
    var rec: int
    var q: int
    var ths: int
    var dur: int
    var motDet: bool
    var mcuVer: Version
    var wifiVer: Version
    var lteVer: Version
    var fotaDuration: int
    var gpsPoll: int
    const zones: array<Zone>

    function View(): Doc
      reads this, zones
    {
      Doc(sNorm, sFmd, tNorm, tFmd, rec, q, ths, dur, motDet, mcuVer, wifiVer, lteVer, fotaDuration, gpsPoll, zones[..])
    }

    constructor (d: Doc)
      ensures View() == d && fresh(zones)
    {
      sNorm, sFmd, tNorm, tFmd, rec, q, ths, dur := d.sNorm, d.sFmd, d.tNorm, d.tFmd, d.rec, d.q, d.ths, d.dur;
      motDet, mcuVer, wifiVer, lteVer := d.motDet, d.mcuVer, d.wifiVer, d.lteVer;
      fotaDuration, gpsPoll := d.fotaDuration, d.gpsPoll;
      zones := new Zone[|d.zones|](i requires 0 <= i < |d.zones| => d.zones[i]);
    }

    method CopyZones(source: seq<Zone>)
      requires zones.Length == |source| == NUM_ZONES
      modifies zones
      ensures zones[..] == source
    {
      for i := 0 to NUM_ZONES
        invariant zones[..i] == source[..i]
      {
        zones[i] := source[i];
      }
      assert zones[..] == zones[..NUM_ZONES];
    }

    method ForgetVersions()
      modifies this`mcuVer, this`wifiVer, this`lteVer
      ensures mcuVer == NO_VERSION && wifiVer == NO_VERSION && lteVer == old(lteVer).(major := 0)
    {
      mcuVer := Version(0, 0, 0);
      wifiVer := Version(0, 0, 0);
      lteVer := lteVer.(major := 0);
    }

    method CopyNumbers(o: Doc)
      modifies this`sNorm, this`sFmd, this`tNorm, this`tFmd, this`rec, this`q, this`ths, this`dur
      modifies this`motDet, this`fotaDuration, this`gpsPoll
      ensures sNorm == o.sNorm && sFmd == o.sFmd && tNorm == o.tNorm && tFmd == o.tFmd
      ensures rec == o.rec && q == o.q && ths == o.ths && dur == o.dur
      ensures motDet == o.motDet && fotaDuration == o.fotaDuration && gpsPoll == o.gpsPoll
    {
      sNorm, sFmd, tNorm, tFmd, rec, q, ths, dur := o.sNorm, o.sFmd, o.tNorm, o.tFmd, o.rec, o.q, o.ths, o.dur;
      motDet := o.motDet;
      fotaDuration, gpsPoll := o.fotaDuration, o.gpsPoll;
    }

    method TakeDefaults(o: Doc)
      requires zones.Length == |o.zones| == NUM_ZONES
      modifies this, zones
      ensures View() == Defaults(old(View()), o)
    {
      CopyNumbers(o);
      ForgetVersions();
      CopyZones(o.zones);
    }

    /** One of the clamped fields, `current` being what the document holds so far. */
    static method ParseClamped(m: seq<Field>, name: string, current: int, lo: int, hi: int)
      returns (found: bool, value: int)
      requires lo <= hi
      ensures found == GetField(m, name).Some? && value == Clamped16(m, name, current, lo, hi)
    {
      found, value := false, current;
      var obj := GetField(m, name);
      if obj.Some? {
        value := ToU16(NumberValue(obj.value));
        found := true;
        if value < lo {
          value := lo;
        }
        if value > hi {
          value := hi;
        }
      }
    }

    method ParseNumbers(m: seq<Field>) returns (ret: int)
      modifies this`sNorm, this`sFmd, this`tNorm, this`tFmd, this`rec, this`q, this`ths, this`dur
      ensures sNorm == Clamped16(m, "S_Norm", old(sNorm), 10, 65534)
      ensures sFmd == Clamped16(m, "S_FMD", old(sFmd), 10, 65534)
      ensures tNorm == Clamped16(m, "T_Norm", old(tNorm), 1, 100)
      ensures tFmd == Clamped16(m, "T_FMD", old(tFmd), 1, 100)
      ensures rec == Clamped16(m, "Rec", old(rec), 10, 65534)
      ensures q == Clamped16(m, "Q", old(q), 1, 65534)
      ensures ths == Clamped16(m, "THS", old(ths), 0, 7)
      ensures dur == Clamped16(m, "DUR", old(dur), 0, 65535)
      ensures ret == if GetField(m, "S_Norm").Some? || GetField(m, "S_FMD").Some? || GetField(m, "T_Norm").Some?
                        || GetField(m, "T_FMD").Some? || GetField(m, "Rec").Some? || GetField(m, "Q").Some?
                        || GetField(m, "THS").Some? || GetField(m, "DUR").Some? then 0 else -EINVAL
    {
      hide GetField, Clamped16;
      var a, b, c, d, e, f, g, h;
      a, sNorm := ParseClamped(m, "S_Norm", sNorm, 10, 65534);
      b, sFmd := ParseClamped(m, "S_FMD", sFmd, 10, 65534);
      c, tNorm := ParseClamped(m, "T_Norm", tNorm, 1, 100);
      d, tFmd := ParseClamped(m, "T_FMD", tFmd, 1, 100);
      e, rec := ParseClamped(m, "Rec", rec, 10, 65534);
      f, q := ParseClamped(m, "Q", q, 1, 65534);
      g, ths := ParseClamped(m, "THS", ths, 0, 7);
      h, dur := ParseClamped(m, "DUR", dur, 0, 65535);
      ret := if a || b || c || d || e || f || g || h then 0 else -EINVAL;
    }

    method ParsePeriods(m: seq<Field>, ret0: int) returns (ret: int)
      modifies this`fotaDuration, this`gpsPoll, this`motDet
      ensures fotaDuration == Number32(m, "F_P_DUR", old(fotaDuration))
      ensures gpsPoll == Number32(m, "GPS_PER", old(gpsPoll))
      ensures motDet == FlagOf(m, "MOT_DET", old(motDet))
      ensures ret == if GetField(m, "F_P_DUR").Some? || GetField(m, "GPS_PER").Some? || GetField(m, "MOT_DET").Some?
                     then 0 else ret0
    {
      hide GetField;
      ret := ret0;
      var obj := GetField(m, "F_P_DUR");
      if obj.Some? {
        ret := 0;
        fotaDuration := ToU32(NumberValue(obj.value));
      }
      obj := GetField(m, "GPS_PER");
      if obj.Some? {
        ret := 0;
        gpsPoll := ToU32(NumberValue(obj.value));
      }
      obj := GetField(m, "MOT_DET");
      if obj.Some? {
        ret := 0;
        motDet := ToBool(obj.value);
      }
    }

    method ParseZoneList(items: seq<Json>)
      requires zones.Length == NUM_ZONES
      modifies zones
      ensures zones[..] == ParseZones(old(zones[..]), items)
    {
      for n := 0 to |items|
        invariant zones[..] == ParseZones(old(zones[..]), items[..n])
      {
        ghost var before := zones[..];
        assert items[..n + 1][..n] == items[..n];
        var zval := items[n];
        var iobj := GetItem(zval, "I");
        if iobj.None? || NumberValue(iobj.value).None? {
          continue;
        }
        var di := NumberValue(iobj.value).value;
        if di < 0 || di >= NUM_ZONES {
          continue;
        }
        var zobj := GetItem(zval, "SSID");
        var sobj := GetItem(zval, "SAFE");
        if zobj.None? && sobj.None? {
          continue;
        }
        zones[di] := zones[di].(idx := di);
        if zobj.Some? && zobj.value.Str? {
          zones[di] := zones[di].(ssid := Truncated(zobj.value.s));
        } else {
          continue;
        }
        if sobj.Some? && sobj.value.Bool? {
          zones[di] := zones[di].(safe := sobj.value.b);
        }
      }
      assert items[..|items|] == items;
    }

    method ParseShadowReport(json: Option<Json>, o: Doc) returns (ret: int)
      requires zones.Length == |o.zones| == NUM_ZONES
      modifies this, zones
      ensures Outcome(ret, View()) == ParseReport(json, old(View()), o)
    {
      TakeDefaults(o);
      if json.None? {
        return -ENOMSG;
      }
      var mObj := GetItem(json.value, "M");
      if mObj.None? {
        return -EINVAL;
      }
      if !mObj.value.Object? {
        return -EINVAL;
      }
      var m := mObj.value.fields;
      hide GetField, Clamped16, Number32, FlagOf, ParseZones;
      ret := ParseNumbers(m);
      ret := ParsePeriods(m, ret);
      var obj := GetField(m, "ZONES");
      if obj.Some? {
        ret := 0;
        ParseZoneList(Children(obj.value));
      }
    }
  }

  // ----- Reading a report back -----

  /** What a document becomes when its numbers are clamped and its versions forgotten. */
  function Restored(d: Doc, initial: Doc, zones: seq<Zone>): Doc {
    Doc(Clamp(d.sNorm, 10, 65534), Clamp(d.sFmd, 10, 65534), Clamp(d.tNorm, 1, 100), Clamp(d.tFmd, 1, 100),
        Clamp(d.rec, 10, 65534), Clamp(d.q, 1, 65534), Clamp(d.ths, 0, 7), Clamp(d.dur, 0, 65535),
        d.motDet, NO_VERSION, NO_VERSION, initial.lteVer.(major := 0), d.fotaDuration, d.gpsPoll, zones)
  }

  ghost predicate InRange(d: Doc) {
    && 10 <= d.sNorm <= 65534 && 10 <= d.sFmd <= 65534 && 1 <= d.tNorm <= 100 && 1 <= d.tFmd <= 100
    && 10 <= d.rec <= 65534 && 1 <= d.q <= 65534 && 0 <= d.ths <= 7 && 0 <= d.dur <= 65535
  }

  /** No extra key hides the zones. */
  ghost predicate ZonesVisible(extras: seq<Extra>) {
    forall k :: 0 <= k < |extras| ==> !SameName(extras[k].key, "ZONES")
  }

  /** The names of the fixed fields are told apart by their length and first letter. */
  lemma FixedNames(d: Doc)
    requires Versioned(d)
    ensures var f := FixedFields(d);
            && (forall j, k :: 0 <= j < k < |f| ==> Apart(f[j].name, f[k].name))
            && (forall j :: 0 <= j < |f| ==> Apart(f[j].name, "ZONES"))
            && |f| == 14
  {
    hide VersionText;
  }

  lemma FixedFieldAt(d: Doc, extras: seq<Extra>, k: nat)
    requires Versioned(d) && k < 14
    ensures GetField(ReportFields(d, extras), FixedFields(d)[k].name) == Some(FixedFields(d)[k].value)
  {
    FixedNames(d);
    hide FixedFields, Apart, SameName;
    var m := ReportFields(d, extras);
    forall j | 0 <= j <= k
      ensures m[j] == FixedFields(d)[j]
    {
    }
    forall j | 0 <= j < k
      ensures !SameName(m[j].name, m[k].name)
    {
    }
    GetFieldAt(m, m[k].name, k);
  }

  lemma ZonesFieldAt(d: Doc, extras: seq<Extra>)
    requires Versioned(d) && ZonesVisible(extras)
    ensures GetField(ReportFields(d, extras), "ZONES") == Some(Array(ZoneObjects(d.zones)))
  {
    FixedNames(d);
    var m := ReportFields(d, extras);
    var n := |m| - 1;
    forall j | 0 <= j < n
      ensures !SameName(m[j].name, "ZONES")
    {
      if j < 14 {
        assert m[j] == FixedFields(d)[j];
      } else {
        assert m[j] == ExtraFields(extras)[j - 14];
      }
    }
    hide FixedFields, Apart, SameName, ZoneObjects;
    GetFieldAt(m, "ZONES", n);
  }

  lemma {:induction false} MemberM(id: Identity, d: Doc, extras: seq<Extra>)
    requires Versioned(d)
    ensures GetItem(Report(id, d, extras), "M") == Some(Object(ReportFields(d, extras)))
  {
    var fields := Report(id, d, extras).fields;
    hide ReportFields;
    assert Apart("P", "M") && Apart("MID", "M") && Apart("MK", "M") && Apart("B", "M") && Apart("T", "M");
    forall j | 0 <= j < 5
      ensures !SameName(fields[j].name, "M")
    {
    }
    GetFieldAt(fields, "M", 5);
  }

  // ----- The zones -----

  lemma ZoneMembers(z: Zone)
    ensures GetItem(ZoneObject(z), "I") == Some(Number(z.idx))
    ensures GetItem(ZoneObject(z), "SSID") == Some(Str(z.ssid))
    ensures GetItem(ZoneObject(z), "SAFE") == Some(Bool(z.safe))
  {
    var fields := ZoneObject(z).fields;
    assert Apart("I", "SSID") && Apart("I", "SAFE");
    assert "SSID"[1] == 'S' && "SAFE"[1] == 'A' && LowerChar('S') == 's' && LowerChar('A') == 'a';
    assert !SameName("SSID", "SAFE");
    GetFieldAt(fields, "I", 0);
    GetFieldAt(fields, "SSID", 1);
    GetFieldAt(fields, "SAFE", 2);
  }

  lemma ParseZoneObject(zones: seq<Zone>, z: Zone)
    requires |zones| == NUM_ZONES && |z.ssid| <= SSID_SIZE
    ensures ParseZone(zones, ZoneObject(z)) == if 0 <= z.idx < NUM_ZONES then zones[z.idx := z] else zones
  {
    ZoneMembers(z);
    hide ZoneObject;
  }

  /** The last zone object is the last one read. */
  lemma ParseLastZone(prior: seq<Zone>, zones: seq<Zone>)
    requires |prior| == NUM_ZONES && zones != [] && |zones[|zones| - 1].ssid| <= SSID_SIZE
    ensures var r, z := ParseZones(prior, ZoneObjects(zones[..|zones| - 1])), zones[|zones| - 1];
            ParseZones(prior, ZoneObjects(zones)) == if 0 <= z.idx < NUM_ZONES then r[z.idx := z] else r
  {
    var n := |zones| - 1;
    var objects := ZoneObjects(zones);
    assert objects[..n] == ZoneObjects(zones[..n]);
    hide ZoneObject, ParseZone;
    ParseZoneObject(ParseZones(prior, ZoneObjects(zones[..n])), zones[n]);
  }

  /** The position of the last zone with index `i`, or -1. */
  function Latest(zones: seq<Zone>, i: int): (k: int)
    ensures -1 <= k < |zones|
    ensures k >= 0 ==> zones[k].idx == i
    ensures forall j :: k < j < |zones| ==> zones[j].idx != i
  {
    if zones == [] then -1
    else if zones[|zones| - 1].idx == i then |zones| - 1
    else Latest(zones[..|zones| - 1], i)
  }

  /** What is stored at `i` after reading the zones of a report. */
  function ReadBack(prior: seq<Zone>, zones: seq<Zone>, i: nat): Zone
    requires i < |prior|
  {
    var k := Latest(zones, i);
    if k < 0 then prior[i] else zones[k]
  }

  /** Reading zone objects back stores each zone under its own index, the last one winning. */
  lemma {:induction false} ParseZoneObjects(prior: seq<Zone>, zones: seq<Zone>)
    requires |prior| == NUM_ZONES && forall i :: 0 <= i < |zones| ==> |zones[i].ssid| <= SSID_SIZE
    ensures var r := ParseZones(prior, ZoneObjects(zones));
            forall i :: 0 <= i < NUM_ZONES ==> r[i] == ReadBack(prior, zones, i)
    decreases |zones|
  {
    if zones != [] {
      ParseLastZone(prior, zones);
      ParseZoneObjects(prior, zones[..|zones| - 1]);
      hide *;
      forall i | 0 <= i < NUM_ZONES
        ensures ParseZones(prior, ZoneObjects(zones))[i] == ReadBack(prior, zones, i)
      {
        ReadBackLast(prior, zones, i);
      }
    } else {
      hide ZoneObjects;
      assert ZoneObjects(zones) == [];
    }
  }

  lemma ReadBackLast(prior: seq<Zone>, zones: seq<Zone>, i: nat)
    requires i < |prior| && zones != []
    ensures var z := zones[|zones| - 1];
            ReadBack(prior, zones, i) == if z.idx == i then z else ReadBack(prior, zones[..|zones| - 1], i)
  {
  }

  /** With every zone under its own index all zones come back. */
  lemma {:induction false} ParseOrderedZones(prior: seq<Zone>, zones: seq<Zone>)
    requires |prior| == NUM_ZONES && |zones| <= NUM_ZONES
    requires forall i :: 0 <= i < |zones| ==> zones[i].idx == i && |zones[i].ssid| <= SSID_SIZE
    ensures ParseZones(prior, ZoneObjects(zones)) == zones + prior[|zones|..]
    decreases |zones|
  {
    if zones == [] {
      assert ZoneObjects(zones) == [];
      assert [] + prior[0..] == prior;
    } else {
      var n := |zones| - 1;
      ParseLastZone(prior, zones);
      hide *;
      ParseOrderedZones(prior, zones[..n]);
      OneMoreZone(prior, zones, n);
    }
  }

  lemma OneMoreZone(prior: seq<Zone>, zones: seq<Zone>, n: nat)
    requires n < |prior| && |zones| == n + 1
    ensures (zones[..n] + prior[n..])[n := zones[n]] == zones + prior[n + 1..]
  {
  }

  // ----- The round trip -----

  lemma NumberLookUps(d: Doc, extras: seq<Extra>)
    requires Versioned(d)
    ensures var m := ReportFields(d, extras);
            && GetField(m, "S_Norm") == Some(Number(d.sNorm)) && GetField(m, "S_FMD") == Some(Number(d.sFmd))
            && GetField(m, "T_Norm") == Some(Number(d.tNorm)) && GetField(m, "T_FMD") == Some(Number(d.tFmd))
            && GetField(m, "Rec") == Some(Number(d.rec)) && GetField(m, "Q") == Some(Number(d.q))
            && GetField(m, "THS") == Some(Number(d.ths))
  {
    var f, g := FixedFields(d), NumberFields(d);
    forall k | 0 <= k < 7
      ensures GetField(ReportFields(d, extras), g[k].name) == Some(g[k].value)
    {
      FixedFieldAt(d, extras, k);
      assert f[k] == g[k];
    }
    hide GetField, ReportFields, FixedFields;
    assert g[0].name == "S_Norm" && g[1].name == "S_FMD" && g[2].name == "T_Norm" && g[3].name == "T_FMD";
    assert g[4].name == "Rec" && g[5].name == "Q" && g[6].name == "THS";
  }

  lemma OtherLookUps(d: Doc, extras: seq<Extra>)
    requires Versioned(d)
    ensures var m := ReportFields(d, extras);
            && GetField(m, "DUR") == Some(Number(d.dur)) && GetField(m, "MOT_DET") == Some(Number(Flag(d.motDet)))
            && GetField(m, "F_P_DUR") == Some(Number(d.fotaDuration)) && GetField(m, "GPS_PER") == Some(Number(d.gpsPoll))
  {
    var f, g := FixedFields(d), OtherFields(d);
    forall k | 0 <= k < 7
      ensures GetField(ReportFields(d, extras), g[k].name) == Some(g[k].value)
    {
      FixedFieldAt(d, extras, k + 7);
      assert f[7 + k] == g[k];
    }
    hide GetField, ReportFields, FixedFields, VersionText;
    assert g[0].name == "DUR" && g[1].name == "MOT_DET" && g[5].name == "F_P_DUR" && g[6].name == "GPS_PER";
  }

  lemma ParsedFields(d: Doc, extras: seq<Extra>, initial: Doc, prior: Doc)
    requires Typed(d) && Versioned(d) && ZonesVisible(extras) && |prior.zones| == NUM_ZONES
    ensures var m := ReportFields(d, extras);
            && Interesting(m)
            && Parsed(m, initial, prior) == Restored(d, initial, ParseZones(prior.zones, ZoneObjects(d.zones)))
  {
    var m := ReportFields(d, extras);
    NumberLookUps(d, extras);
    OtherLookUps(d, extras);
    ZonesFieldAt(d, extras);
    hide GetField, ReportFields, ZoneObjects, ParseZones, ZonesVisible, Clamped16, Clamp, ToU32;
  }

  /** Parsing a report gives the document back, numbers clamped, whatever the old document and the
      extra fields are. */
  lemma RoundTrip(id: Identity, d: Doc, extras: seq<Extra>, initial: Doc, prior: Doc)
    requires Typed(d) && Versioned(d) && ZonesVisible(extras) && |prior.zones| == NUM_ZONES
    requires forall i :: 0 <= i < NUM_ZONES ==> d.zones[i].idx == i
    ensures ParseReport(Some(Report(id, d, extras)), initial, prior) == Outcome(0, Restored(d, initial, d.zones))
  {
    MemberM(id, d, extras);
    ParsedFields(d, extras, initial, prior);
    ParseOrderedZones(prior.zones, d.zones);
    assert d.zones + prior.zones[NUM_ZONES..] == d.zones;
    hide Report, ReportFields, Parsed, Interesting, ZoneObjects, ParseZones, GetItem;
  }

  /** The numbers come back exactly when the document was in range. */
  lemma NumbersComeBack(d: Doc, initial: Doc)
    requires Typed(d)
    ensures InRange(d) <==>
              Restored(d, initial, d.zones) ==
                d.(mcuVer := NO_VERSION, wifiVer := NO_VERSION, lteVer := initial.lteVer.(major := 0))
  {
  }

  /** For any document and any old one: position i holds the last zone reported under index i, or
      what was there. */
  lemma ZonesReadBack(id: Identity, d: Doc, extras: seq<Extra>, initial: Doc, prior: Doc)
    requires Typed(d) && Versioned(d) && ZonesVisible(extras) && |prior.zones| == NUM_ZONES
    ensures var zones := ParseReport(Some(Report(id, d, extras)), initial, prior).doc.zones;
            forall i :: 0 <= i < NUM_ZONES ==> zones[i] == ReadBack(prior.zones, d.zones, i)
  {
    MemberM(id, d, extras);
    ParsedFields(d, extras, initial, prior);
    ParseZoneObjects(prior.zones, d.zones);
    hide Report, ReportFields, Interesting, ZoneObjects, ParseZones, GetItem, ReadBack;
  }

  /** Every zone stands at the position of its own index. */
  ghost predicate Ordered(zones: seq<Zone>) {
    forall i :: 0 <= i < |zones| ==> zones[i].idx == i
  }

  /** Parsing keeps that, whatever the text: so it holds of every old document once it holds of the first. */
  lemma {:induction false} ParsedZonesOrdered(prior: seq<Zone>, items: seq<Json>)
    requires |prior| == NUM_ZONES && Ordered(prior)
    ensures Ordered(ParseZones(prior, items))
    decreases |items|
  {
    if items != [] {
      hide GetItem, NumberValue, Truncated;
      ParsedZonesOrdered(prior, items[..|items| - 1]);
    }
  }

  lemma ParseKeepsOrder(json: Option<Json>, initial: Doc, prior: Doc)
    requires |prior.zones| == NUM_ZONES && Ordered(prior.zones)
    ensures Ordered(ParseReport(json, initial, prior).doc.zones)
  {
    if json.Some? {
      var m := GetItem(json.value, "M");
      if m.Some? && m.value.Object? {
        var j := GetField(m.value.fields, "ZONES");
        if j.Some? {
          ParsedZonesOrdered(prior.zones, Children(j.value));
        }
      }
    }
    hide ParseZones, GetField, Clamped16, Number32, FlagOf, Children, Ordered;
  }

  /** The zones come back, over such an old document, exactly when the reported one was ordered too. */
  lemma ZonesComeBack(id: Identity, d: Doc, extras: seq<Extra>, initial: Doc, prior: Doc)
    requires Typed(d) && Versioned(d) && ZonesVisible(extras)
    requires |prior.zones| == NUM_ZONES && Ordered(prior.zones)
    ensures ParseReport(Some(Report(id, d, extras)), initial, prior).doc.zones == d.zones <==> Ordered(d.zones)
  {
    ZonesReadBack(id, d, extras, initial, prior);
    if Ordered(d.zones) {
      RoundTrip(id, d, extras, initial, prior);
    }
    hide Report, ParseReport;
    assert forall i :: 0 <= i < NUM_ZONES ==> ReadBack(prior.zones, d.zones, i).idx == i;
  }

  // ----- Extra fields that hide the zones -----

  /** The first extra key equal to "ZONES" up to case. */
  lemma FirstHiding(extras: seq<Extra>) returns (k: nat)
    requires !ZonesVisible(extras)
    ensures k < |extras| && SameName(extras[k].key, "ZONES")
    ensures forall j :: 0 <= j < k ==> !SameName(extras[j].key, "ZONES")
  {
    hide SameName;
    var w :| 0 <= w < |extras| && SameName(extras[w].key, "ZONES");
    k := 0;
    while !SameName(extras[k].key, "ZONES")
      invariant k <= w && forall j :: 0 <= j < k ==> !SameName(extras[j].key, "ZONES")
      decreases w - k
    {
      k := k + 1;
    }
  }

  lemma {:induction false} ExtraHasNoChildren(extras: seq<Extra>, k: nat)
    requires k < |extras|
    ensures Children(ExtraFields(extras)[k].value) == []
    decreases |extras|
  {
    if k < |extras| - 1 {
      ExtraHasNoChildren(extras[..|extras| - 1], k);
    }
  }

  /** An extra key equal to "ZONES" up to case hides the zones, wherever it stands: the old ones stay. */
  lemma HiddenZones(id: Identity, d: Doc, extras: seq<Extra>, initial: Doc, prior: Doc)
    requires Typed(d) && Versioned(d) && |prior.zones| == NUM_ZONES && !ZonesVisible(extras)
    ensures ParseReport(Some(Report(id, d, extras)), initial, prior).doc.zones == prior.zones
  {
    MemberM(id, d, extras);
    var m := ReportFields(d, extras);
    var k := FirstHiding(extras);
    FixedNames(d);
    ExtraHasNoChildren(extras, k);
    assert m[14 + k] == ExtraFields(extras)[k];
    forall j | 0 <= j < 14 + k
      ensures !SameName(m[j].name, "ZONES")
    {
      if j < 14 {
        assert m[j] == FixedFields(d)[j];
      } else {
        assert m[j] == ExtraFields(extras)[j - 14];
      }
    }
    hide FixedFields, Apart, SameName, ZoneObjects, ReportFields, Report, Clamped16, Number32, FlagOf, Interesting;
    GetFieldAt(m, "ZONES", 14 + k);
    assert ParseZones(prior.zones, []) == prior.zones;
  }

  /** So a report with ordered zones brings them back over every old document if and only if no
      extra key hides them. */
  lemma ZonesComeBackIffVisible(id: Identity, d: Doc, extras: seq<Extra>, initial: Doc)
    requires Typed(d) && Versioned(d) && Ordered(d.zones)
    ensures (forall prior: Doc :: |prior.zones| == NUM_ZONES ==>
               ParseReport(Some(Report(id, d, extras)), initial, prior).doc.zones == d.zones)
       <==> ZonesVisible(extras)
  {
    hide Report, ParseReport, ZonesVisible;
    if ZonesVisible(extras) {
      forall prior: Doc | |prior.zones| == NUM_ZONES
        ensures ParseReport(Some(Report(id, d, extras)), initial, prior).doc.zones == d.zones
      {
        RoundTrip(id, d, extras, initial, prior);
      }
    } else {
      var z := d.zones[0];
      var other := d.(zones := d.zones[0 := z.(safe := !z.safe)]);
      HiddenZones(id, d, extras, initial, other);
      assert other.zones[0] != d.zones[0];
    }
  }

  // ----- Any text: what is reported changes, what is not stays -----

  /** Case is a matter of the 26 letters. */
  lemma LetterCases(c: char)
    ensures forall k :: 0 <= k < 26 ==> LowerChar("ABCDEFGHIJKLMNOPQRSTUVWXYZ"[k]) == "abcdefghijklmnopqrstuvwxyz"[k]
    ensures c !in "ABCDEFGHIJKLMNOPQRSTUVWXYZ" ==> LowerChar(c) == c
  {
  }

  /** Some field has this name up to case. */
  ghost predicate Named(fields: seq<Field>, name: string) {
    exists k :: 0 <= k < |fields| && SameName(fields[k].name, name)
  }

  /** The first field of this name is the k-th. */
  ghost predicate FirstNamed(fields: seq<Field>, name: string, k: nat) {
    && k < |fields| && SameName(fields[k].name, name)
    && forall j :: 0 <= j < k ==> !SameName(fields[j].name, name)
  }

  lemma {:induction false} FieldFound(fields: seq<Field>, name: string)
    ensures GetField(fields, name).Some? <==> Named(fields, name)
    decreases |fields|
  {
    hide SameName;
    if fields != [] {
      FieldFound(fields[1..], name);
      if Named(fields[1..], name) {
        var k :| 0 <= k < |fields| - 1 && SameName(fields[1..][k].name, name);
        assert fields[k + 1] == fields[1..][k];
      }
      if Named(fields, name) && !SameName(fields[0].name, name) {
        var k :| 0 <= k < |fields| && SameName(fields[k].name, name);
        assert fields[1..][k - 1] == fields[k];
      }
    }
  }

  lemma FirstFound(fields: seq<Field>, name: string)
    ensures forall k: nat :: FirstNamed(fields, name, k) ==> GetField(fields, name) == Some(fields[k].value)
  {
    hide SameName, GetField;
    forall k: nat | FirstNamed(fields, name, k)
      ensures GetField(fields, name) == Some(fields[k].value)
    {
      GetFieldAt(fields, name, k);
    }
  }

  /** A value as an unsigned 32-bit number; what is no number counts as 0. */
  function Saturated(j: Json): int {
    match j
    case Number(n) => if n < 0 then 0 else if n > 4294967295 then 4294967295 else n
    case Decimals(_, n) => if n < 0 then 0 else if n > 4294967295 then 4294967295 else n
    case _ => 0
  }

  /** A setting of 16 bits: unchanged without its field, otherwise the lower half of the number,
      brought between its bounds. */
  ghost predicate Setting16(m: seq<Field>, name: string, before: int, after: int, lo: int, hi: int) {
    && (!Named(m, name) ==> after == before)
    && forall k: nat :: FirstNamed(m, name, k) ==>
         var v := Saturated(m[k].value) % 65536;
         after == if v < lo then lo else if hi < v then hi else v
  }

  ghost predicate Setting32(m: seq<Field>, name: string, before: int, after: int) {
    && (!Named(m, name) ==> after == before)
    && forall k: nat :: FirstNamed(m, name, k) ==> after == Saturated(m[k].value)
  }

  ghost predicate SettingFlag(m: seq<Field>, name: string, before: bool, after: bool) {
    && (!Named(m, name) ==> after == before)
    && forall k: nat :: FirstNamed(m, name, k) ==> (after <==> m[k].value != Number(0))
  }

  lemma SaturatedIs(j: Json)
    ensures ToU32(NumberValue(j)) == Saturated(j) && ToU16(NumberValue(j)) == Saturated(j) % 65536
  {
  }

  lemma ClampedSetting(m: seq<Field>, name: string, before: int, lo: int, hi: int)
    requires lo <= hi
    ensures Setting16(m, name, before, Clamped16(m, name, before, lo, hi), lo, hi)
  {
    FieldFound(m, name);
    FirstFound(m, name);
    forall j: Json
      ensures ToU16(NumberValue(j)) == Saturated(j) % 65536
    {
      SaturatedIs(j);
    }
    hide GetField, Named, FirstNamed, NumberValue, ToU16, Saturated;
  }

  lemma NumberSetting(m: seq<Field>, name: string, before: int)
    ensures Setting32(m, name, before, Number32(m, name, before))
  {
    FieldFound(m, name);
    FirstFound(m, name);
    forall j: Json
      ensures ToU32(NumberValue(j)) == Saturated(j)
    {
      SaturatedIs(j);
    }
    hide GetField, Named, FirstNamed, NumberValue, ToU32, Saturated;
  }

  lemma FlagSetting(m: seq<Field>, name: string, before: bool)
    ensures SettingFlag(m, name, before, FlagOf(m, name, before))
  {
    FieldFound(m, name);
    FirstFound(m, name);
    hide GetField, Named, FirstNamed;
  }

  /** The first member called "M" up to case holds these fields. */
  ghost predicate MessageFields(tree: Json, m: seq<Field>) {
    tree.Object? && exists k: nat :: FirstNamed(tree.fields, "M", k) && tree.fields[k].value == Object(m)
  }

  lemma MessageFound(tree: Json, m: seq<Field>)
    requires MessageFields(tree, m)
    ensures GetItem(tree, "M") == Some(Object(m))
  {
    FirstFound(tree.fields, "M");
    hide GetField, FirstNamed;
  }

  /** All settings after parsing, each by its own key. */
  ghost predicate Settings(m: seq<Field>, prior: Doc, doc: Doc) {
    && Setting16(m, "S_Norm", prior.sNorm, doc.sNorm, 10, 65534)
    && Setting16(m, "S_FMD", prior.sFmd, doc.sFmd, 10, 65534)
    && Setting16(m, "T_Norm", prior.tNorm, doc.tNorm, 1, 100)
    && Setting16(m, "T_FMD", prior.tFmd, doc.tFmd, 1, 100)
    && Setting16(m, "Rec", prior.rec, doc.rec, 10, 65534)
    && Setting16(m, "Q", prior.q, doc.q, 1, 65534)
    && Setting16(m, "THS", prior.ths, doc.ths, 0, 7)
    && Setting16(m, "DUR", prior.dur, doc.dur, 0, 65535)
    && Setting32(m, "F_P_DUR", prior.fotaDuration, doc.fotaDuration)
    && Setting32(m, "GPS_PER", prior.gpsPoll, doc.gpsPoll)
    && SettingFlag(m, "MOT_DET", prior.motDet, doc.motDet)
  }

  /** One of the keys that make a report worth parsing. */
  ghost predicate Counted(m: seq<Field>) {
    || Named(m, "S_Norm") || Named(m, "S_FMD") || Named(m, "T_Norm") || Named(m, "T_FMD") || Named(m, "Rec")
    || Named(m, "Q") || Named(m, "THS") || Named(m, "DUR") || Named(m, "F_P_DUR") || Named(m, "GPS_PER")
    || Named(m, "MOT_DET") || Named(m, "ZONES")
  }

  lemma InterestingIsCounted(m: seq<Field>)
    ensures Interesting(m) <==> Counted(m)
  {
    FieldFound(m, "S_Norm");
    FieldFound(m, "S_FMD");
    FieldFound(m, "T_Norm");
    FieldFound(m, "T_FMD");
    FieldFound(m, "Rec");
    FieldFound(m, "Q");
    FieldFound(m, "THS");
    FieldFound(m, "DUR");
    FieldFound(m, "F_P_DUR");
    FieldFound(m, "GPS_PER");
    FieldFound(m, "MOT_DET");
    FieldFound(m, "ZONES");
    hide GetField, Named;
  }

  lemma ParsedSettings(m: seq<Field>, initial: Doc, prior: Doc)
    requires |prior.zones| == NUM_ZONES
    ensures Settings(m, prior, Parsed(m, initial, prior))
  {
    ClampedSetting(m, "S_Norm", prior.sNorm, 10, 65534);
    ClampedSetting(m, "S_FMD", prior.sFmd, 10, 65534);
    ClampedSetting(m, "T_Norm", prior.tNorm, 1, 100);
    ClampedSetting(m, "T_FMD", prior.tFmd, 1, 100);
    ClampedSetting(m, "Rec", prior.rec, 10, 65534);
    ClampedSetting(m, "Q", prior.q, 1, 65534);
    ClampedSetting(m, "THS", prior.ths, 0, 7);
    ClampedSetting(m, "DUR", prior.dur, 0, 65535);
    NumberSetting(m, "F_P_DUR", prior.fotaDuration);
    NumberSetting(m, "GPS_PER", prior.gpsPoll);
    FlagSetting(m, "MOT_DET", prior.motDet);
    hide Setting16, Setting32, SettingFlag, Clamped16, Number32, FlagOf, ZonesOf;
  }

  /** A text that is no report leaves all settings as they were. */
  predicate Kept(prior: Doc, initial: Doc, doc: Doc) {
    doc == prior.(mcuVer := Version(0, 0, 0), wifiVer := Version(0, 0, 0),
                  lteVer := Version(0, initial.lteVer.minor, initial.lteVer.patch))
  }

  /** Whatever the text: a setting whose key "M" does not hold keeps its old value, one whose key it
      holds gets the first value under it; the zones stay without theirs; and the result is 0 exactly
      when one of the keys is there. */
  lemma DeltasOnly(tree: Json, m: seq<Field>, initial: Doc, prior: Doc)
    requires |prior.zones| == NUM_ZONES && MessageFields(tree, m)
    ensures var o := ParseReport(Some(tree), initial, prior);
            && Settings(m, prior, o.doc)
            && (!Named(m, "ZONES") ==> o.doc.zones == prior.zones)
            && o.doc.mcuVer == o.doc.wifiVer == Version(0, 0, 0)
            && o.doc.lteVer == Version(0, initial.lteVer.minor, initial.lteVer.patch)
            && o.ret == if Counted(m) then 0 else -22
  {
    MessageFound(tree, m);
    ParsedSettings(m, initial, prior);
    InterestingIsCounted(m);
    FieldFound(m, "ZONES");
    hide Interesting, Counted, Settings, GetField, GetItem, Clamped16, Number32, FlagOf;
  }

  /** Text that does not parse, and a tree without an object under "M", change nothing. */
  lemma NoReport(json: Option<Json>, initial: Doc, prior: Doc)
    requires |prior.zones| == NUM_ZONES
    ensures var o := ParseReport(json, initial, prior);
            && (json.None? ==> o.ret == -91 && Kept(prior, initial, o.doc))
            && (json.Some? && (forall m: seq<Field> :: !MessageFields(json.value, m)) ==>
                  o.ret == -22 && Kept(prior, initial, o.doc))
  {
    if json.Some? {
      var j := GetItem(json.value, "M");
      if j.Some? && j.value.Object? {
        FirstExists(json.value.fields, "M");
        var k: nat :| FirstNamed(json.value.fields, "M", k);
        FirstFound(json.value.fields, "M");
        assert MessageFields(json.value, j.value.fields);
      }
    }
    hide FirstNamed, GetField, Parsed, Interesting;
  }

  lemma {:induction false} FirstExists(fields: seq<Field>, name: string)
    requires GetField(fields, name).Some?
    ensures exists k: nat :: FirstNamed(fields, name, k)
    decreases |fields|
  {
    hide SameName;
    if SameName(fields[0].name, name) {
      assert FirstNamed(fields, name, 0);
    } else {
      FirstExists(fields[1..], name);
      var k: nat :| FirstNamed(fields[1..], name, k);
      assert fields[k + 1] == fields[1..][k];
      assert forall j :: 0 < j <= k ==> fields[j] == fields[1..][j - 1];
      assert FirstNamed(fields, name, k + 1);
    }
  }

  // ----- One entry of the zones -----

  /** One entry of the list changes only the zone of its index, and that zone's name only to a string,
      its flag only together with its name. */
  lemma ZoneEntry(zones: seq<Zone>, entry: Json)
    requires |zones| == NUM_ZONES
    ensures var after, i := ParseZone(zones, entry), GetItem(entry, "I");
            var ssid, safe := GetItem(entry, "SSID"), GetItem(entry, "SAFE");
            if i.None? || !(i.value.Number? || i.value.Decimals?) || (ssid.None? && safe.None?) then after == zones
            else
              var n := if i.value.Number? then i.value.n else i.value.whole;
              if n < 0 || n >= 5 then after == zones
              else
                && (forall k :: 0 <= k < 5 && k != n ==> after[k] == zones[k])
                && after[n].idx == n
                && after[n].ssid == (if ssid.Some? && ssid.value.Str?
                                     then ssid.value.s[..if |ssid.value.s| > 32 then 32 else |ssid.value.s|]
                                     else zones[n].ssid)
                && after[n].safe == (if ssid.Some? && ssid.value.Str? && safe.Some? && safe.value.Bool?
                                     then safe.value.b else zones[n].safe)
  {
    hide GetItem;
  }

  /** The list may be an object: then its values are the entries. */
  lemma ZonesInObject(entries: seq<Field>, items: seq<Json>)
    requires |entries| == |items| && forall k :: 0 <= k < |items| ==> entries[k].value == items[k]
    ensures Children(Object(entries)) == items && Children(Array(items)) == items
  {
    ValuesAre(entries, items);
  }

  lemma {:induction false} ValuesAre(entries: seq<Field>, items: seq<Json>)
    requires |entries| == |items| && forall k :: 0 <= k < |items| ==> entries[k].value == items[k]
    ensures Values(entries) == items
    decreases |entries|
  {
    if entries != [] {
      ValuesAre(entries[1..], items[1..]);
    }
  }

  /** The entries are taken one after the other. */
  lemma ZonesInTurn(prior: seq<Zone>, items: seq<Json>, entry: Json)
    requires |prior| == NUM_ZONES
    ensures ParseZones(prior, []) == prior
    ensures ParseZones(prior, items + [entry]) == ParseZone(ParseZones(prior, items), entry)
  {
    hide ParseZone;
    assert (items + [entry])[..|items|] == items;
  }

  lemma ZonesReported(tree: Json, m: seq<Field>, k: nat, initial: Doc, prior: Doc)
    requires |prior.zones| == NUM_ZONES && MessageFields(tree, m) && FirstNamed(m, "ZONES", k)
    ensures ParseReport(Some(tree), initial, prior).doc.zones == ParseZones(prior.zones, Children(m[k].value))
  {
    MessageFound(tree, m);
    FirstFound(m, "ZONES");
    hide GetField, GetItem, Clamped16, Number32, FlagOf, Interesting, ParseZone, Children, FirstNamed, MessageFields;
  }

  // ----- Deltas -----

  /** The fields whose names are kept. */
  function Only(fields: seq<Field>, keys: set<string>): seq<Field> {
    if fields == [] then []
    else (if fields[0].name in keys then [fields[0]] else []) + Only(fields[1..], keys)
  }

  /** A report cut down to some of its fixed fields. */
  function Delta(id: Identity, d: Doc, keys: set<string>): Json
    requires Versioned(d)
  {
    Object([Field("P", Number(id.protocol)), Field("MID", Str(id.mid)), Field("MK", Str(id.market)),
            Field("B", Number(id.brand)), Field("T", Number(id.messageType)),
            Field("M", Object(Only(FixedFields(d), keys)))])
  }

  /** Up to case only the name itself is this name. */
  ghost predicate Exact(fields: seq<Field>, name: string) {
    forall k :: 0 <= k < |fields| && SameName(fields[k].name, name) ==> fields[k].name == name
  }

  lemma {:induction false} OnlyGets(fields: seq<Field>, keys: set<string>, name: string)
    requires Exact(fields, name)
    ensures GetField(Only(fields, keys), name) == if name in keys then GetField(fields, name) else None
    decreases |fields|
  {
    hide SameName;
    if fields != [] {
      var f, rest := fields[0], fields[1..];
      assert forall k :: 0 <= k < |rest| ==> rest[k] == fields[k + 1];
      OnlyGets(rest, keys, name);
      assert ([f] + Only(rest, keys))[1..] == Only(rest, keys);
      assert [] + Only(rest, keys) == Only(rest, keys);
    }
  }

  lemma SameAsItself(name: string)
    ensures SameName(name, name)
  {
  }

  lemma FixedExact(d: Doc, k: nat)
    requires Versioned(d) && k < 14
    ensures Exact(FixedFields(d), FixedFields(d)[k].name)
    ensures GetField(FixedFields(d), FixedFields(d)[k].name) == Some(FixedFields(d)[k].value)
  {
    FixedNames(d);
    SameAsItself(FixedFields(d)[k].name);
    var f := FixedFields(d);
    forall j | 0 <= j < 14 && j != k
      ensures !SameName(f[j].name, f[k].name)
    {
      assert Apart(f[if j < k then j else k].name, f[if j < k then k else j].name);
    }
    hide FixedFields, Apart, SameName, GetField;
    GetFieldAt(f, f[k].name, k);
  }

  /** What a cut-down report holds under the k-th of the fixed keys. */
  lemma OnlyFixed(d: Doc, keys: set<string>, k: nat)
    requires Versioned(d) && k < 14
    ensures var f := FixedFields(d)[k];
            GetField(Only(FixedFields(d), keys), f.name) == if f.name in keys then Some(f.value) else None
  {
    hide *;
    FixedExact(d, k);
    OnlyGets(FixedFields(d), keys, FixedFields(d)[k].name);
  }

  function Kept16(kept: bool, reported: int, before: int, lo: int, hi: int): int {
    if !kept then before else if reported < lo then lo else if reported > hi then hi else reported
  }

  /** The value a kept key has in the cut-down report. */
  function Sent(kept: bool, value: Json): Option<Json> {
    if kept then Some(value) else None
  }

  lemma SentNumbers(d: Doc, keys: set<string>)
    requires Versioned(d)
    ensures var m := Only(FixedFields(d), keys);
            && GetField(m, "S_Norm") == Sent("S_Norm" in keys, Number(d.sNorm))
            && GetField(m, "S_FMD") == Sent("S_FMD" in keys, Number(d.sFmd))
            && GetField(m, "T_Norm") == Sent("T_Norm" in keys, Number(d.tNorm))
            && GetField(m, "T_FMD") == Sent("T_FMD" in keys, Number(d.tFmd))
            && GetField(m, "Rec") == Sent("Rec" in keys, Number(d.rec))
            && GetField(m, "Q") == Sent("Q" in keys, Number(d.q))
            && GetField(m, "THS") == Sent("THS" in keys, Number(d.ths))
  {
    var f, g := FixedFields(d), NumberFields(d);
    forall k | 0 <= k < 7
      ensures GetField(Only(f, keys), g[k].name) == Sent(g[k].name in keys, g[k].value)
    {
      OnlyFixed(d, keys, k);
      assert f[k] == g[k];
    }
    hide GetField, Only, FixedFields;
    assert g[0].name == "S_Norm" && g[1].name == "S_FMD" && g[2].name == "T_Norm" && g[3].name == "T_FMD";
    assert g[4].name == "Rec" && g[5].name == "Q" && g[6].name == "THS";
  }

  lemma SentOthers(d: Doc, keys: set<string>)
    requires Versioned(d)
    ensures var m := Only(FixedFields(d), keys);
            && GetField(m, "DUR") == Sent("DUR" in keys, Number(d.dur))
            && GetField(m, "MOT_DET") == Sent("MOT_DET" in keys, Number(if d.motDet then 1 else 0))
            && GetField(m, "F_P_DUR") == Sent("F_P_DUR" in keys, Number(d.fotaDuration))
            && GetField(m, "GPS_PER") == Sent("GPS_PER" in keys, Number(d.gpsPoll))
  {
    var f, g := FixedFields(d), OtherFields(d);
    forall k | 0 <= k < 7
      ensures GetField(Only(f, keys), g[k].name) == Sent(g[k].name in keys, g[k].value)
    {
      OnlyFixed(d, keys, k + 7);
      assert f[7 + k] == g[k];
    }
    hide GetField, Only, FixedFields, VersionText;
    assert g[0].name == "DUR" && g[1].name == "MOT_DET" && g[5].name == "F_P_DUR" && g[6].name == "GPS_PER";
  }

  lemma NoZonesSent(d: Doc, keys: set<string>)
    requires Versioned(d)
    ensures GetField(Only(FixedFields(d), keys), "ZONES") == None
  {
    FixedNames(d);
    var f := FixedFields(d);
    forall j | 0 <= j < 14
      ensures !SameName(f[j].name, "ZONES")
    {
      assert Apart(f[j].name, "ZONES");
    }
    hide FixedFields, Apart, SameName, GetField, Only;
    FieldFound(f, "ZONES");
    OnlyGets(f, keys, "ZONES");
  }

  lemma {:induction false} MemberOfDelta(id: Identity, d: Doc, keys: set<string>)
    requires Versioned(d)
    ensures GetItem(Delta(id, d, keys), "M") == Some(Object(Only(FixedFields(d), keys)))
  {
    var fields := Delta(id, d, keys).fields;
    hide Only, FixedFields;
    assert Apart("P", "M") && Apart("MID", "M") && Apart("MK", "M") && Apart("B", "M") && Apart("T", "M");
    forall j | 0 <= j < 5
      ensures !SameName(fields[j].name, "M")
    {
    }
    GetFieldAt(fields, "M", 5);
  }

  lemma SentClamped(m: seq<Field>, name: string, kept: bool, reported: int, before: int, lo: int, hi: int)
    requires GetField(m, name) == Sent(kept, Number(reported)) && 0 <= reported < 65536 && lo <= hi
    ensures Clamped16(m, name, before, lo, hi) == Kept16(kept, reported, before, lo, hi)
  {
    hide GetField;
  }

  lemma SentNumber(m: seq<Field>, name: string, kept: bool, reported: int, before: int)
    requires GetField(m, name) == Sent(kept, Number(reported)) && 0 <= reported < 0x1_0000_0000
    ensures Number32(m, name, before) == if kept then reported else before
  {
    hide GetField;
  }

  /** Exactly the settings still in the report change. */
  ghost predicate ChangesOnly(keys: set<string>, d: Doc, prior: Doc, doc: Doc) {
    && doc.sNorm == Kept16("S_Norm" in keys, d.sNorm, prior.sNorm, 10, 65534)
    && doc.sFmd == Kept16("S_FMD" in keys, d.sFmd, prior.sFmd, 10, 65534)
    && doc.tNorm == Kept16("T_Norm" in keys, d.tNorm, prior.tNorm, 1, 100)
    && doc.tFmd == Kept16("T_FMD" in keys, d.tFmd, prior.tFmd, 1, 100)
    && doc.rec == Kept16("Rec" in keys, d.rec, prior.rec, 10, 65534)
    && doc.q == Kept16("Q" in keys, d.q, prior.q, 1, 65534)
    && doc.ths == Kept16("THS" in keys, d.ths, prior.ths, 0, 7)
    && doc.dur == Kept16("DUR" in keys, d.dur, prior.dur, 0, 65535)
    && doc.motDet == (if "MOT_DET" in keys then d.motDet else prior.motDet)
    && doc.fotaDuration == (if "F_P_DUR" in keys then d.fotaDuration else prior.fotaDuration)
    && doc.gpsPoll == (if "GPS_PER" in keys then d.gpsPoll else prior.gpsPoll)
    && doc.zones == prior.zones
  }

  lemma TypedNumbers(d: Doc)
    requires Typed(d)
    ensures 0 <= d.sNorm < 65536 && 0 <= d.sFmd < 65536 && 0 <= d.tNorm < 65536 && 0 <= d.tFmd < 65536
    ensures 0 <= d.rec < 65536 && 0 <= d.q < 65536 && 0 <= d.ths < 65536 && 0 <= d.dur < 65536
    ensures 0 <= d.fotaDuration < 0x1_0000_0000 && 0 <= d.gpsPoll < 0x1_0000_0000
  {
  }

  lemma DeltaNumbers(d: Doc, keys: set<string>, m: seq<Field>, prior: Doc)
    requires Typed(d) && Versioned(d) && m == Only(FixedFields(d), keys)
    ensures Clamped16(m, "S_Norm", prior.sNorm, 10, 65534) == Kept16("S_Norm" in keys, d.sNorm, prior.sNorm, 10, 65534)
    ensures Clamped16(m, "S_FMD", prior.sFmd, 10, 65534) == Kept16("S_FMD" in keys, d.sFmd, prior.sFmd, 10, 65534)
    ensures Clamped16(m, "T_Norm", prior.tNorm, 1, 100) == Kept16("T_Norm" in keys, d.tNorm, prior.tNorm, 1, 100)
    ensures Clamped16(m, "T_FMD", prior.tFmd, 1, 100) == Kept16("T_FMD" in keys, d.tFmd, prior.tFmd, 1, 100)
    ensures Clamped16(m, "Rec", prior.rec, 10, 65534) == Kept16("Rec" in keys, d.rec, prior.rec, 10, 65534)
    ensures Clamped16(m, "Q", prior.q, 1, 65534) == Kept16("Q" in keys, d.q, prior.q, 1, 65534)
    ensures Clamped16(m, "THS", prior.ths, 0, 7) == Kept16("THS" in keys, d.ths, prior.ths, 0, 7)
    ensures Clamped16(m, "DUR", prior.dur, 0, 65535) == Kept16("DUR" in keys, d.dur, prior.dur, 0, 65535)
  {
    hide *;
    TypedNumbers(d);
    SentNumbers(d, keys);
    SentOthers(d, keys);
    SentClamped(m, "S_Norm", "S_Norm" in keys, d.sNorm, prior.sNorm, 10, 65534);
    SentClamped(m, "S_FMD", "S_FMD" in keys, d.sFmd, prior.sFmd, 10, 65534);
    SentClamped(m, "T_Norm", "T_Norm" in keys, d.tNorm, prior.tNorm, 1, 100);
    SentClamped(m, "T_FMD", "T_FMD" in keys, d.tFmd, prior.tFmd, 1, 100);
    SentClamped(m, "Rec", "Rec" in keys, d.rec, prior.rec, 10, 65534);
    SentClamped(m, "Q", "Q" in keys, d.q, prior.q, 1, 65534);
    SentClamped(m, "THS", "THS" in keys, d.ths, prior.ths, 0, 7);
    SentClamped(m, "DUR", "DUR" in keys, d.dur, prior.dur, 0, 65535);
  }

  lemma DeltaOthers(d: Doc, keys: set<string>, m: seq<Field>, prior: Doc)
    requires Typed(d) && Versioned(d) && |prior.zones| == NUM_ZONES && m == Only(FixedFields(d), keys)
    ensures Number32(m, "F_P_DUR", prior.fotaDuration) == if "F_P_DUR" in keys then d.fotaDuration else prior.fotaDuration
    ensures Number32(m, "GPS_PER", prior.gpsPoll) == if "GPS_PER" in keys then d.gpsPoll else prior.gpsPoll
    ensures FlagOf(m, "MOT_DET", prior.motDet) == if "MOT_DET" in keys then d.motDet else prior.motDet
    ensures ZonesOf(m, prior.zones) == prior.zones
  {
    hide *;
    TypedNumbers(d);
    SentOthers(d, keys);
    SentNumber(m, "F_P_DUR", "F_P_DUR" in keys, d.fotaDuration, prior.fotaDuration);
    SentNumber(m, "GPS_PER", "GPS_PER" in keys, d.gpsPoll, prior.gpsPoll);
    SentFlag(m, "MOT_DET" in keys, d.motDet, prior.motDet);
    NoZonesSent(d, keys);
    WithoutZones(m, prior.zones);
  }

  lemma WithoutZones(m: seq<Field>, prior: seq<Zone>)
    requires |prior| == NUM_ZONES && GetField(m, "ZONES") == None
    ensures ZonesOf(m, prior) == prior
  {
    hide GetField;
  }

  lemma DeltaParsed(d: Doc, keys: set<string>, initial: Doc, prior: Doc)
    requires Typed(d) && Versioned(d) && |prior.zones| == NUM_ZONES
    ensures ChangesOnly(keys, d, prior, Parsed(Only(FixedFields(d), keys), initial, prior))
  {
    hide Typed, Versioned, GetField, Only, FixedFields, Clamped16, Number32, FlagOf, Kept16, ZonesOf;
    DeltaNumbers(d, keys, Only(FixedFields(d), keys), prior);
    DeltaOthers(d, keys, Only(FixedFields(d), keys), prior);
  }

  lemma SentFlag(m: seq<Field>, kept: bool, reported: bool, before: bool)
    requires GetField(m, "MOT_DET") == Sent(kept, Number(if reported then 1 else 0))
    ensures FlagOf(m, "MOT_DET", before) == if kept then reported else before
  {
    hide GetField;
  }

  /** Parsing a report cut down to any of its fixed fields changes exactly the settings of those kept,
      and returns 0 if and only if one that counts is left. */
  lemma DeltaChangesOnly(id: Identity, d: Doc, keys: set<string>, initial: Doc, prior: Doc)
    requires Typed(d) && Versioned(d) && |prior.zones| == NUM_ZONES
    ensures var o := ParseReport(Some(Delta(id, d, keys)), initial, prior);
            && ChangesOnly(keys, d, prior, o.doc)
            && o.ret == if keys * {"S_Norm", "S_FMD", "T_Norm", "T_FMD", "Rec", "Q", "THS", "DUR", "MOT_DET", "F_P_DUR",
                                   "GPS_PER"} != {} then 0 else -22
  {
    MemberOfDelta(id, d, keys);
    DeltaParsed(d, keys, initial, prior);
    DeltaCounts(d, keys);
    hide Delta, Only, FixedFields, GetItem, Interesting, Parsed, ChangesOnly;
  }

  lemma DeltaCounts(d: Doc, keys: set<string>)
    requires Versioned(d)
    ensures Interesting(Only(FixedFields(d), keys)) <==>
              keys * {"S_Norm", "S_FMD", "T_Norm", "T_FMD", "Rec", "Q", "THS", "DUR", "MOT_DET", "F_P_DUR", "GPS_PER"} != {}
  {
    SentNumbers(d, keys);
    SentOthers(d, keys);
    NoZonesSent(d, keys);
    hide GetField, Only, FixedFields;
    var counted := {"S_Norm", "S_FMD", "T_Norm", "T_FMD", "Rec", "Q", "THS", "DUR", "MOT_DET", "F_P_DUR", "GPS_PER"};
    if x :| x in keys * counted {
    }
    assert forall x :: x in counted && x in keys ==> x in keys * counted;
  }

  // ----- What a report says -----

  predicate SaysVersion(j: Option<Json>, v: Version)
    requires v.major >= 0 && v.minor >= 0 && v.patch >= 0
  {
    j == Some(Str(Decimal(v.major) + "." + Decimal(v.minor) + "." + Decimal(v.patch)))
  }

  ghost predicate SaysSettings(m: Option<Json>, d: Doc)
    requires Versioned(d)
  {
    && Under(m, "S_Norm") == Some(Number(d.sNorm)) && Under(m, "S_FMD") == Some(Number(d.sFmd))
    && Under(m, "T_Norm") == Some(Number(d.tNorm)) && Under(m, "T_FMD") == Some(Number(d.tFmd))
    && Under(m, "Rec") == Some(Number(d.rec)) && Under(m, "Q") == Some(Number(d.q))
    && Under(m, "THS") == Some(Number(d.ths)) && Under(m, "DUR") == Some(Number(d.dur))
    && Under(m, "MOT_DET") == Some(Number(if d.motDet then 1 else 0))
    && Under(m, "F_P_DUR") == Some(Number(d.fotaDuration)) && Under(m, "GPS_PER") == Some(Number(d.gpsPoll))
    && SaysVersion(Under(m, "MV"), d.mcuVer) && SaysVersion(Under(m, "WV"), d.wifiVer)
    && SaysVersion(Under(m, "LV"), d.lteVer)
  }

  predicate SaysZone(item: Json, z: Zone) {
    && item.Object? && |item.fields| == 3
    && Under(Some(item), "I") == Some(Number(z.idx)) && Under(Some(item), "SSID") == Some(Str(z.ssid))
    && Under(Some(item), "SAFE") == Some(Bool(z.safe))
  }

  lemma ZoneSays(z: Zone)
    ensures SaysZone(ZoneObject(z), z)
  {
    var f := ZoneObject(z).fields;
    assert |"I"| == 1 && "SSID"[1] == 'S' && "SAFE"[1] == 'A';
    LookUpAt(f, "I", 0);
    LookUpAt(f, "SSID", 1);
    LookUpAt(f, "SAFE", 2);
  }

  lemma FixedLookUp(d: Doc, rest: seq<Field>, k: nat)
    requires Versioned(d) && k < 14
    ensures LookUp(FixedFields(d) + rest, FixedFields(d)[k].name) == Some(FixedFields(d)[k].value)
  {
    FixedNames(d);
    hide FixedFields, LookUp;
    var f := FixedFields(d) + rest;
    forall j | 0 <= j < k
      ensures f[j].name != f[k].name
    {
      assert Apart(FixedFields(d)[j].name, FixedFields(d)[k].name);
    }
    LookUpAt(f, f[k].name, k);
  }

  lemma FixedSays(d: Doc, rest: seq<Field>)
    requires Versioned(d)
    ensures SaysSettings(Some(Object(FixedFields(d) + rest)), d)
  {
    var f, g, h := FixedFields(d) + rest, NumberFields(d), OtherFields(d);
    forall k | 0 <= k < 7
      ensures LookUp(f, g[k].name) == Some(g[k].value) && LookUp(f, h[k].name) == Some(h[k].value)
    {
      hide LookUp, FixedFields;
      FixedLookUp(d, rest, k);
      FixedLookUp(d, rest, 7 + k);
      assert FixedFields(d)[k] == g[k] && FixedFields(d)[7 + k] == h[k];
    }
    hide LookUp, FixedFields, Decimal;
    assert g[0].name == "S_Norm" && g[1].name == "S_FMD" && g[2].name == "T_Norm" && g[3].name == "T_FMD";
    assert g[4].name == "Rec" && g[5].name == "Q" && g[6].name == "THS";
    assert h[0].name == "DUR" && h[1].name == "MOT_DET" && h[2].name == "MV" && h[3].name == "WV" && h[4].name == "LV";
    assert h[5].name == "F_P_DUR" && h[6].name == "GPS_PER";
  }

  lemma {:induction false} ExtrasSay(extras: seq<Extra>)
    ensures forall k :: 0 <= k < |extras| ==>
              ExtraFields(extras)[k] ==
                Field(extras[k].key, if extras[k].value.None? then Null else Str(extras[k].value.value))
    decreases |extras|
  {
    if extras != [] {
      var n := |extras| - 1;
      ExtrasSay(extras[..n]);
      assert forall k :: 0 <= k < n ==> ExtraFields(extras)[k] == ExtraFields(extras[..n])[k] && extras[..n][k] == extras[k];
    }
  }

  /** A report, read by its field names: the identity, every setting and version, the extra fields in
      order, and behind them the zones. */
  lemma ReportSays(id: Identity, d: Doc, extras: seq<Extra>)
    requires Versioned(d)
    ensures var top := Some(Report(id, d, extras));
            var m := Under(top, "M");
            && Under(top, "P") == Some(Number(id.protocol)) && Under(top, "MID") == Some(Str(id.mid))
            && Under(top, "MK") == Some(Str(id.market)) && Under(top, "B") == Some(Number(id.brand))
            && Under(top, "T") == Some(Number(id.messageType))
            && m.Some? && m.value.Object? && SaysSettings(m, d)
            && var f, n := m.value.fields, |extras|;
               && |f| == 15 + n
               && (forall k :: 0 <= k < n ==>
                     f[14 + k] == Field(extras[k].key,
                                        if extras[k].value.None? then Null else Str(extras[k].value.value)))
               && f[14 + n].name == "ZONES" && f[14 + n].value.Array?
               && |f[14 + n].value.items| == |d.zones|
               && forall k :: 0 <= k < |d.zones| ==> SaysZone(f[14 + n].value.items[k], d.zones[k])
  {
    var f := Report(id, d, extras).fields;
    var m := ReportFields(d, extras);
    assert "P"[0] == 'P' && "B"[0] == 'B' && "T"[0] == 'T' && "M"[0] == 'M';
    hide ReportFields;
    LookUpAt(f, "P", 0);
    LookUpAt(f, "MID", 1);
    LookUpAt(f, "MK", 2);
    LookUpAt(f, "B", 3);
    LookUpAt(f, "T", 4);
    LookUpAt(f, "M", 5);
    hide LookUp, SaysSettings, SaysZone;
    ReportBody(d, extras);
  }

  lemma ReportBody(d: Doc, extras: seq<Extra>)
    requires Versioned(d)
    ensures var f, n := ReportFields(d, extras), |extras|;
            && SaysSettings(Some(Object(f)), d) && |f| == 15 + n
            && (forall k :: 0 <= k < n ==>
                  f[14 + k] == Field(extras[k].key,
                                     if extras[k].value.None? then Null else Str(extras[k].value.value)))
            && f[14 + n].name == "ZONES" && f[14 + n].value.Array?
            && |f[14 + n].value.items| == |d.zones|
            && forall k :: 0 <= k < |d.zones| ==> SaysZone(f[14 + n].value.items[k], d.zones[k])
  {
    hide SaysSettings, SaysZone, FixedFields, ZoneObject;
    var rest := ExtraFields(extras) + [Field("ZONES", Array(ZoneObjects(d.zones)))];
    FixedSays(d, rest);
    assert ReportFields(d, extras) == FixedFields(d) + rest;
    ExtrasSay(extras);
    forall k | 0 <= k < |d.zones|
      ensures SaysZone(ZoneObjects(d.zones)[k], d.zones[k])
    {
      ZoneSays(d.zones[k]);
    }
    hide ExtraFields, ZoneObjects;
  }
}
