/** The way of a Wi-Fi scan: the host rewrites the scanner's table into lines of text
    (mfg_shell/src/main.c), the modem reads the lines back (asset_tracker_v2/src/modules/
    spis_interface.c).  Text is modelled without its terminating NUL. */
module ScanPipeline {
  import opened Options
  import opened Text

  // ----- The host: parse_ssids -----

  datatype State = MAC | CHANNEL | RSSI | CREDS | SSID

  const PACKET_SIZE: nat := 2000
  const TAG := "+WFSCAN"
  const FIRST_ROW: nat := 10

  function After(st: State, c: char): State {
    if c == '\t' then
      match st
      case MAC => CHANNEL
      case CHANNEL => RSSI
      case RSSI => CREDS
      case CREDS => SSID
      case SSID => SSID
    else if c == '\n' then MAC
    else st
  }

  function Emitted(st: State, c: char): string {
    if c == '\t' then (if st == MAC then "," else "")
    else if c == '\n' then "\n"
    else if st == RSSI || st == MAC then [c]
    else ""
  }

  /** What the state machine emits for the rest of the table. */
  function Rewrite(st: State, s: string): (r: string)
    ensures |r| <= |s|
    decreases |s|
  {
    if s == "" then "" else Emitted(st, s[0]) + Rewrite(After(st, s[0]), s[1..])
  }

  function StateAt(st: State, s: string): State
    decreases |s|
  {
    if s == "" then st else StateAt(After(st, s[0]), s[1..])
  }

  predicate IsScan(buf: string) {
    |buf| >= 9 && buf[2..9] == TAG
  }

  lemma Assoc<T>(a: seq<T>, b: seq<T>, c: seq<T>)
    ensures (a + b) + c == a + (b + c)
  {
  }

  lemma RewriteFirst(st: State, c: char, s: string)
    ensures Rewrite(st, [c] + s) == Emitted(st, c) + Rewrite(After(st, c), s)
    ensures StateAt(st, [c] + s) == StateAt(After(st, c), s)
  {
    hide Emitted, After;
    assert ([c] + s)[1..] == s;
  }

  lemma {:induction false} RewriteConcat(st: State, s: string, t: string)
    ensures Rewrite(st, s + t) == Rewrite(st, s) + Rewrite(StateAt(st, s), t)
    ensures StateAt(st, s + t) == StateAt(StateAt(st, s), t)
    decreases |s|
  {
    if s == "" {
      assert s + t == t;
    } else {
      var c, rest := s[0], s[1..];
      assert s == [c] + rest;
      hide Rewrite, StateAt, Emitted, After;
      RewriteConcat(After(st, c), rest, t);
      Assoc([c], rest, t);
      RewriteFirst(st, c, rest);
      RewriteFirst(st, c, rest + t);
      Assoc(Emitted(st, c), Rewrite(After(st, c), rest), Rewrite(StateAt(st, s), t));
    }
  }

  lemma OneChar(st: State, c: char)
    ensures Rewrite(st, [c]) == Emitted(st, c) && StateAt(st, [c]) == After(st, c)
  {
    assert [c][1..] == "";
  }

  lemma RewriteNext(s: string, i: nat, j: nat)
    requires i <= j < |s|
    ensures Rewrite(MAC, s[i..j + 1]) == Rewrite(MAC, s[i..j]) + Emitted(StateAt(MAC, s[i..j]), s[j])
    ensures StateAt(MAC, s[i..j + 1]) == After(StateAt(MAC, s[i..j]), s[j])
  {
    assert s[i..j + 1] == s[i..j] + [s[j]];
    OneChar(StateAt(MAC, s[i..j]), s[j]);
    hide Rewrite, StateAt, Emitted, After;
    RewriteConcat(MAC, s[i..j], [s[j]]);
  }

  /** Fills the packet with the rewritten table and returns its length; the buffer is ignored (-1)
      when it is no scan. */
  method ParseSsids(buf: string, packet: array<char>) returns (length: int)
    requires packet.Length == PACKET_SIZE && |buf| < PACKET_SIZE
    modifies packet
    ensures !IsScan(buf) ==> length == -1 && packet[..] == old(packet[..])
    ensures IsScan(buf) && |buf| >= FIRST_ROW ==> 0 <= length <= |buf| - FIRST_ROW
    ensures IsScan(buf) && |buf| >= FIRST_ROW ==> packet[..length] == Rewrite(MAC, buf[FIRST_ROW..])
    ensures IsScan(buf) && |buf| < FIRST_ROW ==> length == 0
  {
    if |buf| < 9 || buf[2..9] != TAG {
      return -1;
    }
    var smState := MAC;
    length := 0;
    var i := FIRST_ROW;
    hide Rewrite, StateAt;
    assert |buf| >= FIRST_ROW ==> buf[FIRST_ROW..FIRST_ROW] == "" && buf[FIRST_ROW..|buf|] == buf[FIRST_ROW..];
    while i < |buf|
      invariant 0 <= length <= i - FIRST_ROW
      invariant i <= |buf| || i == FIRST_ROW
      invariant i <= |buf| ==> packet[..length] == Rewrite(MAC, buf[FIRST_ROW..i])
      invariant i <= |buf| ==> smState == StateAt(MAC, buf[FIRST_ROW..i])
      invariant i > |buf| ==> length == 0
    {
      RewriteNext(buf, FIRST_ROW, i);
      ghost var before := packet[..length];
      ghost var st := smState;
      var c := buf[i];
      if c == '\t' {
        match smState {
          case MAC =>
            packet[length] := ',';
            length := length + 1;
            smState := CHANNEL;
          case CHANNEL =>
            smState := RSSI;
          case RSSI =>
            smState := CREDS;
          case CREDS =>
            smState := SSID;
          case SSID =>
        }
      } else if c == '\n' {
        packet[length] := '\n';
        length := length + 1;
        smState := MAC;
      } else if smState == RSSI || smState == MAC {
        packet[length] := c;
        length := length + 1;
      }
      assert packet[..length] == before + Emitted(st, c);
      assert smState == After(st, c);
      i := i + 1;
    }
  }

  // ----- The modem: sscanf and the line loop -----

  predicate IsHex(c: char) {
    '0' <= c <= '9' || 'a' <= c <= 'f' || 'A' <= c <= 'F'
  }

  function HexValue(c: char): (v: nat)
    requires IsHex(c)
    ensures v < 16
  {
    if c <= '9' then c as int - '0' as int
    else if c <= 'F' then c as int - 'A' as int + 10
    else c as int - 'a' as int + 10
  }

  predicate AllHex(s: string) {
    forall k :: 0 <= k < |s| ==> IsHex(s[k])
  }

  function SkipHex(s: string, i: nat): (j: nat)
    requires i <= |s|
    ensures i <= j <= |s| && AllHex(s[i..j])
    ensures j < |s| ==> !IsHex(s[j])
    decreases |s| - i
  {
    if i < |s| && IsHex(s[i]) then
      var j := SkipHex(s, i + 1);
      assert s[i..j] == [s[i]] + s[i + 1..j];
      j
    else i
  }

  function HexNumber(s: string): nat
    requires AllHex(s)
  {
    if s == "" then 0 else 16 * HexNumber(s[..|s| - 1]) + HexValue(s[|s| - 1])
  }

  const ULONG_MAX: int := 0xFFFF_FFFF

  datatype HexScan = HexScan(byte: int, end: nat)

  datatype MacScan = MacScan(bytes: seq<int>, end: nat)

  /** "%hhx": the byte read and the position after it. */
  function ScanHex(s: string, i: nat): (r: Option<HexScan>)
    requires i <= |s|
    ensures r.Some? ==> i < r.value.end <= |s| && 0 <= r.value.byte < 256
  {
    var start := SkipSpaces(s, i);
    var signed := start < |s| && (s[start] == '-' || s[start] == '+');
    var first := if signed then start + 1 else start;
    var digits := if first + 1 < |s| && s[first] == '0' && (s[first + 1] == 'x' || s[first + 1] == 'X')
                  then first + 2 else first;
    var end := SkipHex(s, digits);
    if end == digits then None
    else
      var n := HexNumber(s[digits..end]);
      var magnitude: int := if n > ULONG_MAX then ULONG_MAX else n;
      Some(HexScan((if signed && s[start] == '-' then -magnitude else magnitude) % 256, end))
  }

  /** "%hhd". */
  function ScanDec(s: string, i: nat): (r: Option<int>)
    requires i <= |s|
    ensures r.Some? ==> -128 <= r.value < 128 && (r.value - StrToL(s, i).value) % 256 == 0
    ensures r.None? <==> StrToL(s, i).end == i
  {
    var scan := StrToL(s, i);
    if scan.end == i then None else Some((scan.value + 128) % 256 - 128)
  }

  /** `n` conversions "%hhx", each followed by its separator: ':' or, after the last one, ','. */
  function ScanMac(s: string, i: nat, n: nat): (r: Option<MacScan>)
    requires i <= |s|
    ensures r.Some? ==> |r.value.bytes| == n && i <= r.value.end <= |s|
    decreases n
  {
    if n == 0 then Some(MacScan([], i))
    else
      var b := ScanHex(s, i);
      if b.None? then None
      else
        var end := b.value.end;
        if end < |s| && s[end] == (if n == 1 then ',' else ':') then
          var rest := ScanMac(s, end + 1, n - 1);
          if rest.None? then None else Some(MacScan([b.value.byte] + rest.value.bytes, rest.value.end))
        else None
  }

  datatype AccessPoint = AccessPoint(mac: seq<int>, rssi: int)

  /** sscanf of one line; None unless all seven conversions succeed. */
  function ScanLine(s: string, i: nat): Option<AccessPoint>
    requires i <= |s|
  {
    var mac := ScanMac(s, i, 6);
    if mac.None? then None
    else
      var rssi := ScanDec(s, mac.value.end);
      if rssi.None? then None else Some(AccessPoint(mac.value.bytes, rssi.value))
  }

  /** strchr for a newline: its position, or the length of the text. */
  function FindNewline(s: string, i: nat): (j: nat)
    requires i <= |s|
    ensures i <= j <= |s|
    ensures j < |s| ==> s[j] == '\n'
    decreases |s| - i
  {
    if i == |s| || s[i] == '\n' then i else FindNewline(s, i + 1)
  }

  /** The access points the line loop collects from position `i` on. */
  function AccessPoints(s: string, i: nat): seq<AccessPoint>
    requires i <= |s|
    decreases |s| - i
  {
    var line := ScanLine(s, i);
    if line.None? then []
    else
      var newline := FindNewline(s, i);
      [line.value] + if newline == |s| then [] else AccessPoints(s, newline + 1)
  }

  lemma AccessPointsStep(s: string, i: nat, ap: AccessPoint)
    requires i <= |s| && ScanLine(s, i) == Some(ap)
    ensures FindNewline(s, i) == |s| ==> AccessPoints(s, i) == [ap]
    ensures FindNewline(s, i) < |s| ==> AccessPoints(s, i) == [ap] + AccessPoints(s, FindNewline(s, i) + 1)
  {
    hide ScanLine, FindNewline;
  }

  /** One turn of the loop. */
  lemma Collected(found: seq<AccessPoint>, s: string, i: nat, ap: AccessPoint)
    requires i <= |s| && ScanLine(s, i) == Some(ap)
    ensures FindNewline(s, i) == |s| ==> found + AccessPoints(s, i) == found + [ap]
    ensures FindNewline(s, i) < |s| ==>
              found + AccessPoints(s, i) == found + [ap] + AccessPoints(s, FindNewline(s, i) + 1)
  {
    hide ScanLine, FindNewline, AccessPoints;
    AccessPointsStep(s, i, ap);
    if FindNewline(s, i) < |s| {
      var rest := AccessPoints(s, FindNewline(s, i) + 1);
      assert found + ([ap] + rest) == found + [ap] + rest;
    }
  }

  lemma CollectedNone(found: seq<AccessPoint>, s: string, i: nat)
    requires i <= |s| && ScanLine(s, i).None?
    ensures found + AccessPoints(s, i) == found
  {
  }

  method ParseLines(s: string) returns (found: seq<AccessPoint>)
    ensures found == AccessPoints(s, 0)
  {
    hide AccessPoints, ScanLine, FindNewline;
    found := [];
    var p := 0;
    var line := ScanLine(s, p);
    while line.Some?
      invariant p <= |s| && line == ScanLine(s, p)
      invariant found + AccessPoints(s, p) == AccessPoints(s, 0)
      decreases |s| - p
    {
      Collected(found, s, p, line.value);
      found := found + [line.value];
      var newline := FindNewline(s, p);
      if newline == |s| {
        return;
      }
      p := newline + 1;
      line := ScanLine(s, p);
    }
    CollectedNone(found, s, p);
  }

  // ----- What a scan carries -----

  datatype HexPair = HexPair(hi: char, lo: char)

  datatype Row = Row(mac: seq<HexPair>, channel: string, rssi: int, flags: string, ssid: string)

  predicate AllPairs(mac: seq<HexPair>) {
    forall k :: 0 <= k < |mac| ==> IsHex(mac[k].hi) && IsHex(mac[k].lo)
  }

  predicate Free(s: string, c: char) {
    forall k :: 0 <= k < |s| ==> s[k] != c
  }

  /** Fields without tab and newline; the SSID, being the last field, may contain tabs. */
  predicate ValidRow(r: Row) {
    && |r.mac| == 6
    && AllPairs(r.mac)
    && Free(r.channel, '\t') && Free(r.channel, '\n')
    && -128 <= r.rssi < 128
    && Free(r.flags, '\t') && Free(r.flags, '\n')
    && Free(r.ssid, '\n')
  }

  function MacText(mac: seq<HexPair>): string {
    if mac == [] then ""
    else [mac[0].hi, mac[0].lo] + (if |mac| == 1 then "" else ":" + MacText(mac[1..]))
  }

  function Signed(n: int): string {
    if n < 0 then "-" + Decimal(-n) else Decimal(n)
  }

  /** One row of the scanner's table, followed by the rest of the text. */
  function RowThen(r: Row, rest: string): string {
    MacText(r.mac) + (['\t'] + (r.channel + (['\t'] + (Signed(r.rssi)
    + (['\t'] + (r.flags + (['\t'] + (r.ssid + (['\n'] + rest)))))))))
  }

  function Table(rows: seq<Row>, rest: string): string {
    if rows == [] then rest else RowThen(rows[0], Table(rows[1..], rest))
  }

  function MacByte(pair: HexPair): (b: int)
    requires IsHex(pair.hi) && IsHex(pair.lo)
    ensures 0 <= b < 256
  {
    16 * HexValue(pair.hi) + HexValue(pair.lo)
  }

  function MacBytes(mac: seq<HexPair>): seq<int>
    requires AllPairs(mac)
  {
    if mac == [] then [] else [MacByte(mac[0])] + MacBytes(mac[1..])
  }

  function Carried(r: Row): AccessPoint
    requires ValidRow(r)
  {
    AccessPoint(MacBytes(r.mac), r.rssi)
  }

  function AllCarried(rows: seq<Row>): seq<AccessPoint>
    requires forall k :: 0 <= k < |rows| ==> ValidRow(rows[k])
  {
    if rows == [] then [] else [Carried(rows[0])] + AllCarried(rows[1..])
  }

  // ----- The host keeps MAC and RSSI -----

  lemma {:induction false} Copies(st: State, s: string)
    requires (st == MAC || st == RSSI) && Free(s, '\t') && Free(s, '\n')
    ensures Rewrite(st, s) == s && StateAt(st, s) == st
    decreases |s|
  {
    if s != "" {
      Copies(st, s[1..]);
    }
  }

  lemma {:induction false} Drops(st: State, s: string)
    requires st == CHANNEL || st == CREDS || st == SSID
    requires (st == SSID || Free(s, '\t')) && Free(s, '\n')
    ensures Rewrite(st, s) == "" && StateAt(st, s) == st
    decreases |s|
  {
    if s != "" {
      Drops(st, s[1..]);
    }
  }

  /** A field, its separator and the rest. */
  lemma Field(st: State, f: string, c: char, rest: string)
    requires StateAt(st, f) == st
    ensures Rewrite(st, f + ([c] + rest)) == Rewrite(st, f) + (Emitted(st, c) + Rewrite(After(st, c), rest))
  {
    hide Rewrite, StateAt, Emitted, After;
    OneChar(st, c);
    RewriteConcat(st, [c], rest);
    RewriteConcat(st, f, [c] + rest);
  }

  lemma KeptMac(f: string, rest: string)
    requires Free(f, '\t') && Free(f, '\n')
    ensures Rewrite(MAC, f + (['\t'] + rest)) == f + ([','] + Rewrite(CHANNEL, rest))
  {
    Copies(MAC, f);
    Field(MAC, f, '\t', rest);
    hide Rewrite;
  }

  lemma KeptRssi(f: string, rest: string)
    requires Free(f, '\t') && Free(f, '\n')
    ensures Rewrite(RSSI, f + (['\t'] + rest)) == f + Rewrite(CREDS, rest)
  {
    Copies(RSSI, f);
    Field(RSSI, f, '\t', rest);
    hide Rewrite;
  }

  lemma DroppedField(st: State, f: string, rest: string)
    requires st == CHANNEL || st == CREDS
    requires Free(f, '\t') && Free(f, '\n')
    ensures Rewrite(st, f + (['\t'] + rest)) == Rewrite(if st == CHANNEL then RSSI else SSID, rest)
  {
    Drops(st, f);
    Field(st, f, '\t', rest);
    hide Rewrite;
  }

  lemma DroppedSsid(f: string, rest: string)
    requires Free(f, '\n')
    ensures Rewrite(SSID, f + (['\n'] + rest)) == ['\n'] + Rewrite(MAC, rest)
  {
    Drops(SSID, f);
    Field(SSID, f, '\n', rest);
    hide Rewrite;
  }

  /** The line the host makes of a row, followed by the rest of the text. */
  function LineThen(r: Row, rest: string): string {
    MacText(r.mac) + ([','] + (Signed(r.rssi) + (['\n'] + rest)))
  }

  function Lines(rows: seq<Row>, rest: string): string {
    if rows == [] then rest else LineThen(rows[0], Lines(rows[1..], rest))
  }

  lemma {:induction false} MacTextFree(mac: seq<HexPair>)
    requires AllPairs(mac)
    ensures Free(MacText(mac), '\t') && Free(MacText(mac), '\n')
  {
    if mac != [] {
      MacTextFree(mac[1..]);
    }
  }

  lemma RewriteRow(r: Row, rest: string)
    requires ValidRow(r)
    ensures Rewrite(MAC, RowThen(r, rest)) == LineThen(r, Rewrite(MAC, rest))
  {
    MacTextFree(r.mac);
    hide Rewrite, MacText, Signed, Free;
    var t4 := r.ssid + (['\n'] + rest);
    var t3 := r.flags + (['\t'] + t4);
    var t2 := Signed(r.rssi) + (['\t'] + t3);
    var t1 := r.channel + (['\t'] + t2);
    KeptMac(MacText(r.mac), t1);
    DroppedField(CHANNEL, r.channel, t2);
    KeptRssi(Signed(r.rssi), t3);
    DroppedField(CREDS, r.flags, t4);
    DroppedSsid(r.ssid, rest);
  }

  /** The host turns a table into its lines, whatever follows the table. */
  lemma {:induction false} RewriteTable(rows: seq<Row>, rest: string)
    requires forall k :: 0 <= k < |rows| ==> ValidRow(rows[k])
    ensures Rewrite(MAC, Table(rows, rest)) == Lines(rows, Rewrite(MAC, rest))
  {
    if rows != [] {
      RewriteTable(rows[1..], rest);
      hide Rewrite, RowThen, LineThen, ValidRow;
      RewriteRow(rows[0], Table(rows[1..], rest));
    }
  }

  // ----- The modem reads a line back -----

  lemma PairNumber(hi: char, lo: char)
    requires IsHex(hi) && IsHex(lo)
    ensures AllHex([hi, lo]) && HexNumber([hi, lo]) == 16 * HexValue(hi) + HexValue(lo)
  {
    hide IsHex, HexValue;
    assert [hi, lo][..1] == [hi] && [hi][..0] == "";
    assert HexNumber([hi]) == HexValue(hi);
  }

  lemma SkipTwo(s: string, i: nat)
    requires i + 2 < |s| && IsHex(s[i]) && IsHex(s[i + 1]) && !IsHex(s[i + 2])
    ensures SkipHex(s, i) == i + 2
  {
    hide IsHex;
    assert SkipHex(s, i + 2) == i + 2;
    assert SkipHex(s, i + 1) == i + 2;
  }

  lemma ScanHexPair(s: string, i: nat, pair: HexPair)
    requires i + 2 < |s| && s[i] == pair.hi && s[i + 1] == pair.lo && !IsHex(s[i + 2])
    requires IsHex(pair.hi) && IsHex(pair.lo)
    ensures ScanHex(s, i) == Some(HexScan(MacByte(pair), i + 2))
  {
    SkipTwo(s, i);
    PairNumber(pair.hi, pair.lo);
    assert s[i..i + 2] == [pair.hi, pair.lo];
    assert SkipSpaces(s, i) == i;
    hide SkipHex, HexNumber, SkipSpaces, AllHex;
  }

  /** The text from position `i` on is `t`. */
  predicate Rest(s: string, i: nat, t: string) {
    i <= |s| && s[i..] == t
  }

  lemma PeelPair(s: string, i: nat, pair: HexPair, c: char, b: string)
    requires i <= |s| && s[i..] == [pair.hi, pair.lo] + ([c] + b)
    ensures i + 2 < |s| && s[i] == pair.hi && s[i + 1] == pair.lo && s[i + 2] == c && s[i + 3..] == b
  {
    Peel(s, i, [pair.hi, pair.lo], [c] + b);
    PeelChar(s, i + 2, c, b);
    assert s[i..i + 2] == [pair.hi, pair.lo];
  }

  lemma Regroup<T>(a: seq<T>, b: seq<T>, c: seq<T>, d: seq<T>)
    ensures (a + (b + c)) + d == a + (b + (c + d))
  {
  }

  /** The text of an address, followed by a comma and the rest. */
  function MacThen(mac: seq<HexPair>, rest: string): string
    requires mac != []
    decreases |mac|
  {
    [mac[0].hi, mac[0].lo] + if |mac| == 1 then [','] + rest else [':'] + MacThen(mac[1..], rest)
  }

  lemma {:induction false} MacTextThen(mac: seq<HexPair>, rest: string)
    requires mac != []
    ensures MacText(mac) + ([','] + rest) == MacThen(mac, rest)
    decreases |mac|
  {
    if |mac| > 1 {
      MacTextThen(mac[1..], rest);
      assert MacText(mac) == [mac[0].hi, mac[0].lo] + ([':'] + MacText(mac[1..]));
      assert MacThen(mac, rest) == [mac[0].hi, mac[0].lo] + ([':'] + MacThen(mac[1..], rest));
      hide MacText, MacThen;
      Regroup([mac[0].hi, mac[0].lo], [':'], MacText(mac[1..]), [','] + rest);
    }
  }

  predicate ReadsMac(s: string, i: nat, n: nat, bytes: seq<int>, end: nat) {
    i <= |s| && ScanMac(s, i, n) == Some(MacScan(bytes, end))
  }

  predicate ReadsHex(s: string, i: nat, b: int, end: nat) {
    i <= |s| && ScanHex(s, i) == Some(HexScan(b, end))
  }

  lemma ReadsNothing(s: string, i: nat)
    requires i <= |s|
    ensures ReadsMac(s, i, 0, [], i)
  {
  }

  lemma ScanMacStep(s: string, i: nat, n: nat, b: int, end: nat, bytes: seq<int>, last: nat)
    requires n > 0 && end < |s| && ReadsHex(s, i, b, end) && ReadsMac(s, end + 1, n - 1, bytes, last)
    requires s[end] == if n == 1 then ',' else ':'
    ensures ReadsMac(s, i, n, [b] + bytes, last)
  {
    hide ScanHex;
  }

  lemma MacThenUnfold(mac: seq<HexPair>, rest: string)
    requires mac != []
    ensures |mac| == 1 ==> MacThen(mac, rest) == [mac[0].hi, mac[0].lo] + ([','] + rest)
    ensures |mac| > 1 ==> MacThen(mac, rest) == [mac[0].hi, mac[0].lo] + ([':'] + MacThen(mac[1..], rest))
  {
  }

  lemma Separators()
    ensures !IsHex(',') && !IsHex(':')
  {
  }

  lemma {:induction false} ScanMacThen(s: string, i: nat, mac: seq<HexPair>, rest: string)
    requires mac != [] && AllPairs(mac) && Rest(s, i, MacThen(mac, rest))
    ensures Rest(s, i + 3 * |mac|, rest) && ReadsMac(s, i, |mac|, MacBytes(mac), i + 3 * |mac|)
    decreases |mac|
  {
    hide *;
    MacThenUnfold(mac, rest);
    MacBytesUnfold(mac);
    Separators();
    if |mac| == 1 {
      ScanByte(s, i, mac[0], ',', rest);
      ReadsNothing(s, i + 3);
      ScanMacStep(s, i, 1, MacByte(mac[0]), i + 2, [], i + 3);
    } else {
      ScanByte(s, i, mac[0], ':', MacThen(mac[1..], rest));
      ScanMacThen(s, i + 3, mac[1..], rest);
      ScanMacStep(s, i, |mac|, MacByte(mac[0]), i + 2, MacBytes(mac[1..]), i + 3 * |mac|);
    }
  }

  lemma ScanByte(s: string, i: nat, pair: HexPair, c: char, rest: string)
    requires Rest(s, i, [pair.hi, pair.lo] + ([c] + rest))
    requires IsHex(pair.hi) && IsHex(pair.lo) && !IsHex(c)
    ensures i + 2 < |s| && s[i + 2] == c && Rest(s, i + 3, rest)
    ensures ReadsHex(s, i, MacByte(pair), i + 2)
  {
    hide ScanHex, IsHex, HexValue;
    PeelPair(s, i, pair, c, rest);
    ScanHexPair(s, i, pair);
  }

  lemma MacBytesUnfold(mac: seq<HexPair>)
    requires mac != [] && AllPairs(mac)
    ensures IsHex(mac[0].hi) && IsHex(mac[0].lo) && AllPairs(mac[1..])
    ensures |mac| == 1 ==> MacBytes(mac[1..]) == []
    ensures MacBytes(mac) == [MacByte(mac[0])] + MacBytes(mac[1..])
  {
  }

  lemma StrToLDecimal(s: string, i: nat, n: nat, c: char, rest: string)
    requires n <= LONG_MAX && !IsDigit(c)
    requires i <= |s| && s[i..] == Decimal(n) + ([c] + rest)
    ensures StrToL(s, i) == Scan(n, i + |Decimal(n)|)
  {
    hide Decimal, StrToL, IsDigit;
    ValueOfDecimal(n);
    Peel(s, i, Decimal(n), [c] + rest);
    PeelChar(s, i + |Decimal(n)|, c, rest);
    StrToLDigits(s, i, Decimal(n));
  }

  lemma StrToLMinus(s: string, i: nat, n: nat, c: char, rest: string)
    requires n <= LONG_MAX && !IsDigit(c)
    requires i <= |s| && s[i..] == ['-'] + (Decimal(n) + ([c] + rest))
    ensures StrToL(s, i) == Scan(0 - n, i + 1 + |Decimal(n)|)
  {
    hide Decimal, StrToL, IsDigit;
    ValueOfDecimal(n);
    PeelChar(s, i, '-', Decimal(n) + ([c] + rest));
    Peel(s, i + 1, Decimal(n), [c] + rest);
    PeelChar(s, i + 1 + |Decimal(n)|, c, rest);
    StrToLAfterMinus(s, i, Decimal(n));
  }

  lemma StrToLAfterMinus(s: string, i: nat, digits: string)
    requires i + 1 + |digits| <= |s| && s[i] == '-' && s[i + 1..i + 1 + |digits|] == digits
    requires digits != [] && AllDigits(digits) && Value(digits) <= LONG_MAX
    requires i + 1 + |digits| < |s| ==> !IsDigit(s[i + 1 + |digits|])
    ensures StrToL(s, i) == Scan(0 - Value(digits), i + 1 + |digits|)
  {
    hide Value, AllDigits, SkipSpaces, SkipDigits, IsDigit, IsSpace;
    MinusIsFirst(s, i);
    SkipDigitsStops(s, i + 1, i + 1 + |digits|);
  }

  lemma StrToLSigned(s: string, i: nat, n: int, c: char, rest: string)
    requires -LONG_MAX <= n <= LONG_MAX && !IsDigit(c)
    requires i <= |s| && s[i..] == Signed(n) + ([c] + rest)
    ensures Signed(n) != ""
    ensures StrToL(s, i) == Scan(n, i + |Signed(n)|)
  {
    hide StrToL, IsDigit, Decimal;
    if n >= 0 {
      StrToLDecimal(s, i, n, c, rest);
    } else {
      MinusThen(Decimal(-n), [c] + rest);
      StrToLMinus(s, i, -n, c, rest);
    }
  }

  lemma MinusThen(digits: string, rest: string)
    ensures ("-" + digits) + rest == ['-'] + (digits + rest)
  {
  }

  lemma MinusIsFirst(s: string, i: nat)
    requires i < |s| && s[i] == '-'
    ensures SkipSpaces(s, i) == i
  {
  }

  /** sscanf recovers the bytes and the RSSI from a row's line. */
  lemma ScanLineText(s: string, i: nat, r: Row, rest: string)
    requires ValidRow(r) && i <= |s| && s[i..] == LineThen(r, rest)
    ensures ScanLine(s, i) == Some(Carried(r))
  {
    hide MacText, MacThen, Signed, IsHex, Free, ScanMac, StrToL, MacBytes;
    var more := Signed(r.rssi) + (['\n'] + rest);
    MacTextThen(r.mac, more);
    assert Rest(s, i, MacThen(r.mac, more));
    ScanMacThen(s, i, r.mac, more);
    StrToLSigned(s, i + 18, r.rssi, '\n', rest);
    hide Rest;
  }

  lemma {:induction false} FindNewlineIs(s: string, i: nat, j: nat)
    requires i <= j < |s| && s[j] == '\n' && forall k :: i <= k < j ==> s[k] != '\n'
    ensures FindNewline(s, i) == j
    decreases j - i
  {
    if i < j {
      FindNewlineIs(s, i + 1, j);
    }
  }

  lemma FirstOf(a: string, rest: string)
    requires a != ""
    ensures a + rest == [a[0]] + (a[1..] + rest)
  {
  }

  lemma {:induction false} FindNewlineSkips(s: string, i: nat, a: string, rest: string)
    requires i <= |s| && s[i..] == a + rest && Free(a, '\n')
    ensures i + |a| <= |s| && FindNewline(s, i) == FindNewline(s, i + |a|) && s[i + |a|..] == rest
    decreases |a|
  {
    Peel(s, i, a, rest);
    if a != "" {
      FirstOf(a, rest);
      PeelChar(s, i, a[0], a[1..] + rest);
      FindNewlineSkips(s, i + 1, a[1..], rest);
    }
  }

  lemma FindNewlinePast(s: string, i: nat, a: string, c: char, rest: string)
    requires i <= |s| && s[i..] == a + ([c] + rest) && Free(a, '\n')
    ensures i + |a| + 1 <= |s| && s[i + |a| + 1..] == rest
    ensures c == '\n' ==> FindNewline(s, i) == i + |a|
    ensures c != '\n' ==> FindNewline(s, i) == FindNewline(s, i + |a| + 1)
  {
    FindNewlineSkips(s, i, a, [c] + rest);
    PeelChar(s, i + |a|, c, rest);
  }

  lemma LineParts(r: Row, rest: string)
    requires ValidRow(r)
    ensures LineThen(r, rest) == MacText(r.mac) + ([','] + (Signed(r.rssi) + (['\n'] + rest)))
    ensures Free(MacText(r.mac), '\n') && Free(Signed(r.rssi), '\n')
  {
    MacTextFree(r.mac);
    hide MacText;
  }

  /** strchr finds the end of that very line. */
  lemma NextLine(s: string, i: nat, r: Row, rest: string)
    requires ValidRow(r) && i <= |s| && s[i..] == LineThen(r, rest)
    ensures FindNewline(s, i) < |s| && s[FindNewline(s, i) + 1..] == rest
  {
    hide *;
    LineParts(r, rest);
    FindNewlinePast(s, i, MacText(r.mac), ',', Signed(r.rssi) + (['\n'] + rest));
    FindNewlinePast(s, i + |MacText(r.mac)| + 1, Signed(r.rssi), '\n', rest);
  }

  lemma {:induction false} ReadLines(s: string, i: nat, rows: seq<Row>, rest: string) returns (end: nat)
    requires i <= |s| && s[i..] == Lines(rows, rest)
    requires forall k :: 0 <= k < |rows| ==> ValidRow(rows[k])
    ensures end <= |s| && s[end..] == rest
    ensures AccessPoints(s, i) == AllCarried(rows) + AccessPoints(s, end)
    decreases |rows|
  {
    if rows == [] {
      end := i;
    } else {
      var more := Lines(rows[1..], rest);
      ReadOne(s, i, rows[0], more);
      hide ScanLine, LineThen, ValidRow, Carried, AccessPoints;
      end := ReadLines(s, FindNewline(s, i) + 1, rows[1..], rest);
      Assoc([Carried(rows[0])], AllCarried(rows[1..]), AccessPoints(s, end));
    }
  }

  lemma ReadOne(s: string, i: nat, r: Row, rest: string)
    requires ValidRow(r) && i <= |s| && s[i..] == LineThen(r, rest)
    ensures FindNewline(s, i) < |s| && s[FindNewline(s, i) + 1..] == rest
    ensures AccessPoints(s, i) == [Carried(r)] + AccessPoints(s, FindNewline(s, i) + 1)
  {
    hide ScanLine, LineThen, ValidRow, Carried, AccessPoints, FindNewline;
    ScanLineText(s, i, r, rest);
    NextLine(s, i, r, rest);
    AccessPointsStep(s, i, Carried(r));
  }

  // ----- The whole way -----

  /** No line can be read from the start of `t`: its first character that is no white space cannot
      begin a number. */
  predicate Stops(t: string) {
    var k := SkipSpaces(t, 0);
    k == |t| || (!IsHex(t[k]) && t[k] != '+' && t[k] != '-')
  }

  lemma {:induction false} SkipSpacesShift(s: string, i: nat, j: nat)
    requires i <= j <= |s|
    ensures SkipSpaces(s, j) == i + SkipSpaces(s[i..], j - i)
    decreases |s| - j
  {
    if j < |s| && IsSpace(s[j]) {
      SkipSpacesShift(s, i, j + 1);
    }
  }

  lemma StopsHere(s: string, i: nat)
    requires i <= |s| && Stops(s[i..])
    ensures AccessPoints(s, i) == []
  {
    SkipSpacesShift(s, i, i);
    var k := SkipSpaces(s, i);
    assert k < |s| ==> s[k] == s[i..][k - i];
    assert SkipHex(s, k) == k;
    assert ScanHex(s, i).None?;
    hide ScanHex;
    assert ScanMac(s, i, 6).None?;
  }

  function ScanText(prefix: string, c: char, rows: seq<Row>, tail: string): string {
    prefix + (TAG + ([c] + Table(rows, tail)))
  }

  /** Scans are the texts with the tag behind two characters. */
  lemma IsScanIff(s: string)
    ensures IsScan(s) <==> exists prefix: string, rest: string :: |prefix| == 2 && s == prefix + "+WFSCAN" + rest
  {
    if IsScan(s) {
      assert s == s[..2] + "+WFSCAN" + s[9..];
    }
    if prefix: string, rest: string :| |prefix| == 2 && s == prefix + "+WFSCAN" + rest {
      assert s[2..9] == "+WFSCAN";
    }
  }

  lemma TableInScan(prefix: string, c: char, t: string)
    requires |prefix| == 2
    ensures IsScan(prefix + (TAG + ([c] + t)))
    ensures |prefix + (TAG + ([c] + t))| >= FIRST_ROW
    ensures (prefix + (TAG + ([c] + t)))[FIRST_ROW..] == t
  {
    var s := prefix + (TAG + ([c] + t));
    Peel(s, 0, prefix, TAG + ([c] + t));
    Peel(s, 2, TAG, [c] + t);
    PeelChar(s, 9, c, t);
  }

  /** For every table of valid rows, whatever stops the modem's reading after it: the modem reads
      exactly the rows' addresses and RSSIs, in order, and the text between the two is no longer
      than the table. */
  lemma PipelineRecovers(prefix: string, c: char, rows: seq<Row>, tail: string)
    requires |prefix| == 2
    requires forall k :: 0 <= k < |rows| ==> ValidRow(rows[k])
    requires Stops(Rewrite(MAC, tail))
    ensures var buf := ScanText(prefix, c, rows, tail);
            && IsScan(buf) && |buf| >= FIRST_ROW
            && AccessPoints(Rewrite(MAC, buf[FIRST_ROW..]), 0) == AllCarried(rows)
            && |Rewrite(MAC, buf[FIRST_ROW..])| <= |buf| - FIRST_ROW
  {
    TableInScan(prefix, c, Table(rows, tail));
    RewriteTable(rows, tail);
    hide Rewrite, Table, AccessPoints, AllCarried, Lines, ValidRow, Stops;
    var text := Rewrite(MAC, Table(rows, tail));
    assert text[0..] == text;
    var end := ReadLines(text, 0, rows, Rewrite(MAC, tail));
    StopsHere(text, end);
    assert AllCarried(rows) + [] == AllCarried(rows);
  }

  /** Reading stops at the end of the text and at the closing status of the scanner's answer. */
  lemma UsualTails()
    ensures Stops(Rewrite(MAC, "")) && Stops(Rewrite(MAC, "\r\nOK\r\n"))
  {
    var t := "\r\nOK\r\n";
    assert t[1..] == "\nOK\r\n";
    Copies(MAC, "\r");
    assert ("\r" + (['\n'] + "OK\r\n")) == t;
    Field(MAC, "\r", '\n', "OK\r\n");
    Copies(MAC, "OK\r");
    assert ("OK\r" + (['\n'] + "")) == "OK\r\n";
    Field(MAC, "OK\r", '\n', "");
    assert Rewrite(MAC, t) == t;
    assert SkipSpaces(t, 2) == 2;
    assert SkipSpaces(t, 1) == 2;
  }

  // ----- Any line the host rewrites -----

  /** Fields with tabs between them. */
  function Tabbed(fields: seq<string>): string
    requires fields != []
  {
    if |fields| == 1 then fields[0] else fields[0] + (['\t'] + Tabbed(fields[1..]))
  }

  /** Followed by a newline and the rest. */
  function TabbedThen(fields: seq<string>, rest: string): string
    requires fields != []
  {
    fields[0] + if |fields| == 1 then ['\n'] + rest else ['\t'] + TabbedThen(fields[1..], rest)
  }

  lemma {:induction false} TabbedIs(fields: seq<string>, rest: string)
    requires fields != []
    ensures Tabbed(fields) + ("\n" + rest) == TabbedThen(fields, rest)
    decreases |fields|
  {
    if |fields| > 1 {
      TabbedIs(fields[1..], rest);
      var more := Tabbed(fields[1..]);
      assert Tabbed(fields) == fields[0] + (['\t'] + more);
      hide Tabbed, TabbedThen;
      Regroup(fields[0], ['\t'], more, "\n" + rest);
    }
  }

  /** The part of the line that is still to come in state `st`. */
  function Selected(st: State, fields: seq<string>): string
    requires fields != []
  {
    match st
    case MAC => fields[0] + if |fields| == 1 then "" else "," + if |fields| == 2 then "" else fields[2]
    case CHANNEL => if |fields| == 1 then "" else fields[1]
    case RSSI => fields[0]
    case _ => ""
  }

  lemma FieldThen(st: State, f: string, c: char, rest: string)
    requires Free(f, '\t') && Free(f, '\n') && (c == '\t' || c == '\n')
    ensures Rewrite(st, f + ([c] + rest)) ==
              (if st == MAC || st == RSSI then f else "")
              + ((if c == '\n' then "\n" else if st == MAC then "," else "") + Rewrite(After(st, c), rest))
  {
    if st == MAC || st == RSSI {
      Copies(st, f);
    } else {
      Drops(st, f);
    }
    Field(st, f, c, rest);
    hide Rewrite;
  }

  lemma SelectedStep(st: State, fields: seq<string>, more: string)
    requires |fields| > 1
    ensures var f := if st == MAC || st == RSSI then fields[0] else "";
            Selected(st, fields) + more ==
              f + ((if st == MAC then "," else "") + (Selected(After(st, '\t'), fields[1..]) + more))
  {
    var f := if st == MAC || st == RSSI then fields[0] else "";
    var c := if st == MAC then "," else "";
    assert Selected(st, fields) == f + (c + Selected(After(st, '\t'), fields[1..]));
    hide Selected, After;
    Regroup(f, c, Selected(After(st, '\t'), fields[1..]), more);
  }

  ghost predicate AllFree(fields: seq<string>) {
    forall k :: 0 <= k < |fields| ==> Free(fields[k], '\t') && Free(fields[k], '\n')
  }

  lemma AllFreeTail(fields: seq<string>)
    requires AllFree(fields) && fields != []
    ensures Free(fields[0], '\t') && Free(fields[0], '\n') && AllFree(fields[1..])
  {
  }

  lemma LastSelected(st: State, fields: seq<string>, more: string)
    requires |fields| == 1
    ensures Selected(st, fields) + more == (if st == MAC || st == RSSI then fields[0] else "") + more
    ensures After(st, '\n') == MAC
  {
  }

  lemma TabbedThenUnfold(fields: seq<string>, rest: string)
    requires fields != []
    ensures |fields| == 1 ==> TabbedThen(fields, rest) == fields[0] + (['\n'] + rest)
    ensures |fields| > 1 ==> TabbedThen(fields, rest) == fields[0] + (['\t'] + TabbedThen(fields[1..], rest))
  {
  }

  lemma {:induction false} RewriteTabbed(st: State, fields: seq<string>, rest: string)
    requires fields != [] && AllFree(fields)
    ensures Rewrite(st, TabbedThen(fields, rest)) == Selected(st, fields) + ("\n" + Rewrite(MAC, rest))
    decreases |fields|
  {
    hide *;
    AllFreeTail(fields);
    TabbedThenUnfold(fields, rest);
    if |fields| == 1 {
      FieldThen(st, fields[0], '\n', rest);
      LastSelected(st, fields, "\n" + Rewrite(MAC, rest));
    } else {
      FieldThen(st, fields[0], '\t', TabbedThen(fields[1..], rest));
      RewriteTabbed(After(st, '\t'), fields[1..], rest);
      SelectedStep(st, fields, "\n" + Rewrite(MAC, rest));
    }
  }

  /** Of any line, complete or not, the host keeps the first and the third field; a comma stands for
      the first tab.  Lines stay lines. */
  lemma LineRewritten(fields: seq<string>, rest: string)
    requires fields != [] && AllFree(fields)
    ensures Rewrite(MAC, Tabbed(fields) + ("\n" + rest)) ==
              fields[0] + ((if |fields| > 1 then "," else "") + ((if |fields| > 2 then fields[2] else "")
              + ("\n" + Rewrite(MAC, rest))))
  {
    TabbedIs(fields, rest);
    RewriteTabbed(MAC, fields, rest);
    hide Rewrite, Tabbed, TabbedThen;
  }

  // ----- Addresses as numbers -----

  /** A byte of an address, and which of its two digits are printed as capitals. */
  datatype Octet = Octet(value: int, upperHi: bool, upperLo: bool)

  /** What the scanner sees of one access point. */
  datatype Sighting = Sighting(mac: seq<Octet>, channel: string, rssi: int, flags: string, ssid: string)

  function HexDigit(v: int, upper: bool): char
    requires 0 <= v < 16
  {
    if upper then "0123456789ABCDEF"[v] else "0123456789abcdef"[v]
  }

  predicate IsByte(o: Octet) {
    0 <= o.value < 256
  }

  function HexText(o: Octet): string
    requires IsByte(o)
  {
    [HexDigit(o.value / 16, o.upperHi), HexDigit(o.value % 16, o.upperLo)]
  }

  predicate ValidSighting(s: Sighting) {
    && |s.mac| == 6 && (forall k :: 0 <= k < 6 ==> IsByte(s.mac[k]))
    && Free(s.channel, '\t') && Free(s.channel, '\n')
    && -128 <= s.rssi < 128
    && Free(s.flags, '\t') && Free(s.flags, '\n')
    && Free(s.ssid, '\n')
  }

  function AddressText(mac: seq<Octet>): string
    requires |mac| == 6 && forall k :: 0 <= k < 6 ==> IsByte(mac[k])
  {
    HexText(mac[0]) + ":" + HexText(mac[1]) + ":" + HexText(mac[2]) + ":" + HexText(mac[3]) + ":" + HexText(mac[4])
    + ":" + HexText(mac[5])
  }

  function Printed(s: Sighting): string
    requires ValidSighting(s)
  {
    AddressText(s.mac) + "\t" + s.channel + "\t" + Signed(s.rssi) + "\t" + s.flags + "\t" + s.ssid + "\n"
  }

  /** The scanner's table, followed by the rest of its answer. */
  function PrintedTable(seen: seq<Sighting>, tail: string): string
    requires forall k :: 0 <= k < |seen| ==> ValidSighting(seen[k])
  {
    if seen == [] then tail else Printed(seen[0]) + PrintedTable(seen[1..], tail)
  }

  lemma DigitRead(v: int, upper: bool)
    requires 0 <= v < 16
    ensures IsHex(HexDigit(v, upper)) && HexValue(HexDigit(v, upper)) == v
  {
  }

  function PairOf(o: Octet): HexPair
    requires IsByte(o)
  {
    HexPair(HexDigit(o.value / 16, o.upperHi), HexDigit(o.value % 16, o.upperLo))
  }

  lemma PairRead(o: Octet)
    requires IsByte(o)
    ensures var p := PairOf(o);
            IsHex(p.hi) && IsHex(p.lo) && MacByte(p) == o.value && [p.hi, p.lo] == HexText(o)
  {
    DigitRead(o.value / 16, o.upperHi);
    DigitRead(o.value % 16, o.upperLo);
    hide HexDigit, IsHex, HexValue;
  }

  function PairsOf(mac: seq<Octet>): (r: seq<HexPair>)
    requires forall k :: 0 <= k < |mac| ==> IsByte(mac[k])
    ensures |r| == |mac| && forall k :: 0 <= k < |mac| ==> r[k] == PairOf(mac[k])
  {
    seq(|mac|, k requires 0 <= k < |mac| => PairOf(mac[k]))
  }

  lemma {:induction false} PairsRead(mac: seq<Octet>)
    requires forall k :: 0 <= k < |mac| ==> IsByte(mac[k])
    ensures AllPairs(PairsOf(mac)) && |MacBytes(PairsOf(mac))| == |mac|
    ensures forall k :: 0 <= k < |mac| ==> MacBytes(PairsOf(mac))[k] == mac[k].value
    decreases |mac|
  {
    hide HexText, PairOf, MacByte, IsHex, IsByte;
    if mac != [] {
      PairRead(mac[0]);
      PairsRead(mac[1..]);
      assert PairsOf(mac)[1..] == PairsOf(mac[1..]);
    }
  }

  lemma SixPairs(m: seq<HexPair>)
    requires |m| == 6
    ensures MacText(m) == [m[0].hi, m[0].lo] + (":" + ([m[1].hi, m[1].lo] + (":" + ([m[2].hi, m[2].lo] + (":"
                          + ([m[3].hi, m[3].lo] + (":" + ([m[4].hi, m[4].lo] + (":" + [m[5].hi, m[5].lo])))))))))
  {
    assert m[1..][1..] == m[2..] && m[2..][1..] == m[3..] && m[3..][1..] == m[4..] && m[4..][1..] == m[5..];
    MacTextCons(m);
    MacTextCons(m[1..]);
    MacTextCons(m[2..]);
    MacTextCons(m[3..]);
    MacTextCons(m[4..]);
    MacTextCons(m[5..]);
    hide MacText;
  }

  lemma MacTextCons(m: seq<HexPair>)
    requires m != []
    ensures MacText(m) == if |m| == 1 then [m[0].hi, m[0].lo] else [m[0].hi, m[0].lo] + (":" + MacText(m[1..]))
  {
  }

  lemma Seven<T>(a: seq<T>, b: seq<T>, c: seq<T>, d: seq<T>, e: seq<T>, f: seq<T>, x: seq<T>)
    ensures a + x + b + x + c + x + d + x + e + x + f
         == a + (x + (b + (x + (c + (x + (d + (x + (e + (x + f)))))))))
  {
  }

  lemma AddressTextIs(mac: seq<Octet>)
    requires |mac| == 6 && forall k :: 0 <= k < 6 ==> IsByte(mac[k])
    ensures MacText(PairsOf(mac)) == AddressText(mac)
  {
    forall k | 0 <= k < 6
      ensures [PairOf(mac[k]).hi, PairOf(mac[k]).lo] == HexText(mac[k])
    {
      PairRead(mac[k]);
    }
    hide HexText, PairOf, MacText, IsByte;
    SixPairs(PairsOf(mac));
    Seven(HexText(mac[0]), HexText(mac[1]), HexText(mac[2]), HexText(mac[3]), HexText(mac[4]), HexText(mac[5]), ":");
  }

  function RowOf(s: Sighting): Row
    requires ValidSighting(s)
  {
    Row(PairsOf(s.mac), s.channel, s.rssi, s.flags, s.ssid)
  }

  lemma RowIsValid(s: Sighting)
    requires ValidSighting(s)
    ensures ValidRow(RowOf(s))
    ensures Carried(RowOf(s)).rssi == s.rssi && |Carried(RowOf(s)).mac| == 6
    ensures forall k :: 0 <= k < 6 ==> Carried(RowOf(s)).mac[k] == s.mac[k].value
  {
    PairsRead(s.mac);
    hide PairOf, IsByte, MacBytes, AllPairs, Free;
  }

  lemma Nested<T>(a: seq<T>, b: seq<T>, c: seq<T>, d: seq<T>, e: seq<T>, x: seq<T>, y: seq<T>, rest: seq<T>)
    ensures (a + x + b + x + c + x + d + x + e + y) + rest
         == a + (x + (b + (x + (c + (x + (d + (x + (e + (y + rest)))))))))
  {
  }

  lemma PrintedIs(s: Sighting, rest: string)
    requires ValidSighting(s)
    ensures Printed(s) + rest == RowThen(RowOf(s), rest)
  {
    AddressTextIs(s.mac);
    hide AddressText, MacText, Signed, PairOf, IsByte;
    Nested(AddressText(s.mac), s.channel, Signed(s.rssi), s.flags, s.ssid, "\t", "\n", rest);
  }

  function RowsOf(seen: seq<Sighting>): (r: seq<Row>)
    requires forall k :: 0 <= k < |seen| ==> ValidSighting(seen[k])
    ensures |r| == |seen| && forall k :: 0 <= k < |seen| ==> r[k] == RowOf(seen[k])
  {
    seq(|seen|, k requires 0 <= k < |seen| => RowOf(seen[k]))
  }

  lemma {:induction false} PrintedTableIs(seen: seq<Sighting>, tail: string)
    requires forall k :: 0 <= k < |seen| ==> ValidSighting(seen[k])
    ensures PrintedTable(seen, tail) == Table(RowsOf(seen), tail)
    decreases |seen|
  {
    if seen != [] {
      hide Printed, RowThen, ValidSighting, RowOf;
      PrintedIs(seen[0], PrintedTable(seen[1..], tail));
      PrintedTableIs(seen[1..], tail);
      assert RowsOf(seen)[1..] == RowsOf(seen[1..]);
    }
  }

  lemma {:induction false} AllCarriedAt(rows: seq<Row>)
    requires forall k :: 0 <= k < |rows| ==> ValidRow(rows[k])
    ensures |AllCarried(rows)| == |rows| && forall k :: 0 <= k < |rows| ==> AllCarried(rows)[k] == Carried(rows[k])
    decreases |rows|
  {
    if rows != [] {
      hide ValidRow, Carried;
      AllCarriedAt(rows[1..]);
    }
  }

  /** An access point as it was seen. */
  predicate IsSeen(ap: AccessPoint, s: Sighting) {
    && ap.rssi == s.rssi && |ap.mac| == |s.mac| == 6
    && ap.mac[0] == s.mac[0].value && ap.mac[1] == s.mac[1].value && ap.mac[2] == s.mac[2].value
    && ap.mac[3] == s.mac[3].value && ap.mac[4] == s.mac[4].value && ap.mac[5] == s.mac[5].value
  }

  lemma SeenRow(s: Sighting)
    requires ValidSighting(s)
    ensures ValidRow(RowOf(s)) && IsSeen(Carried(RowOf(s)), s)
  {
    RowIsValid(s);
    hide ValidRow, RowOf, Carried;
  }

  lemma ScanTextIs(prefix: string, c: char, rows: seq<Row>, tail: string)
    ensures FIRST_ROW == 10 && ScanText(prefix, c, rows, tail) == prefix + "+WFSCAN" + [c] + Table(rows, tail)
  {
    hide Table;
  }

  /** For every scan of access points with numbers for addresses, printed in either case: what the
      modem reads out of the host's text are those numbers and RSSIs, in order. */
  lemma NumbersRecovered(prefix: string, c: char, seen: seq<Sighting>, tail: string)
    requires |prefix| == 2
    requires forall k :: 0 <= k < |seen| ==> ValidSighting(seen[k])
    requires Stops(Rewrite(MAC, tail))
    ensures var buf := prefix + "+WFSCAN" + [c] + PrintedTable(seen, tail);
            && IsScan(buf) && |buf| >= 10
            && var found := AccessPoints(Rewrite(MAC, buf[10..]), 0);
               |found| == |seen| && forall k :: 0 <= k < |seen| ==> IsSeen(found[k], seen[k])
  {
    hide *;
    var rows := RowsOf(seen);
    forall k | 0 <= k < |seen|
      ensures ValidRow(rows[k]) && IsSeen(Carried(rows[k]), seen[k])
    {
      SeenRow(seen[k]);
    }
    PrintedTableIs(seen, tail);
    PipelineRecovers(prefix, c, rows, tail);
    ScanTextIs(prefix, c, rows, tail);
    AllCarriedAt(rows);
  }

  // ----- "%hhx" in general -----

  /** A digit and whether it is a capital. */
  datatype Hex = Hex(digit: int, upper: bool)

  ghost predicate AllDigitsHex(ds: seq<Hex>) {
    forall k :: 0 <= k < |ds| ==> 0 <= ds[k].digit < 16
  }

  function HexString(ds: seq<Hex>): string
    requires AllDigitsHex(ds)
  {
    seq(|ds|, k requires 0 <= k < |ds| => HexDigit(ds[k].digit, ds[k].upper))
  }

  function Hexadecimal(ds: seq<Hex>): int {
    if ds == [] then 0 else 16 * Hexadecimal(ds[..|ds| - 1]) + ds[|ds| - 1].digit
  }

  lemma HexStringIsHex(ds: seq<Hex>)
    requires AllDigitsHex(ds)
    ensures |HexString(ds)| == |ds| && AllHex(HexString(ds))
  {
    forall k | 0 <= k < |ds|
      ensures IsHex(HexString(ds)[k])
    {
      DigitRead(ds[k].digit, ds[k].upper);
    }
    hide HexDigit, IsHex;
  }

  lemma {:induction false} HexNumberIs(ds: seq<Hex>)
    requires AllDigitsHex(ds)
    ensures AllHex(HexString(ds)) && HexNumber(HexString(ds)) == Hexadecimal(ds)
    decreases |ds|
  {
    HexStringIsHex(ds);
    if ds != [] {
      var n := |ds| - 1;
      HexNumberIs(ds[..n]);
      assert HexString(ds)[..n] == HexString(ds[..n]);
      DigitRead(ds[n].digit, ds[n].upper);
      hide HexDigit, HexValue, IsHex, AllHex;
    }
  }

  lemma {:induction false} SkipHexStops(s: string, i: nat, j: nat)
    requires i <= j <= |s| && AllHex(s[i..j])
    requires j < |s| ==> !IsHex(s[j])
    ensures SkipHex(s, i) == j
    decreases j - i
  {
    hide IsHex;
    if i < j {
      assert s[i..j][0] == s[i];
      assert s[i + 1..j] == s[i..j][1..];
      SkipHexStops(s, i + 1, j);
    }
  }

  lemma HexThen(s: string, i: nat, digits: string, rest: string)
    requires i <= |s| && s[i..] == digits + rest && AllHex(digits)
    requires rest == "" || rest[0] !in "0123456789abcdefABCDEF"
    ensures var end := i + |digits|; end <= |s| && s[i..end] == digits && SkipHex(s, i) == end
  {
    hide SkipHex, AllHex;
    Peel(s, i, digits, rest);
    if rest != "" {
      PeelChar(s, i + |digits|, rest[0], rest[1..]);
      NotHex(rest[0]);
    }
    hide IsHex;
    SkipHexStops(s, i, i + |digits|);
  }

  lemma NotHex(c: char)
    ensures c !in "0123456789abcdefABCDEF" ==> !IsHex(c)
  {
  }

  lemma PrefixIs(s: string, first: nat, prefix: string, digits: string, rest: string)
    requires first <= |s| && s[first..] == prefix + (digits + rest)
    requires prefix == "" || prefix == "0x" || prefix == "0X"
    requires digits != "" && AllHex(digits) && (rest == "" || (rest[0] != 'x' && rest[0] != 'X'))
    ensures (first + 1 < |s| && s[first] == '0' && (s[first + 1] == 'x' || s[first + 1] == 'X')) <==> prefix != ""
    ensures first + |prefix| <= |s| && s[first + |prefix|..] == digits + rest
  {
    Peel(s, first, prefix, digits + rest);
    var at := first + |prefix|;
    Peel(s, at, digits, rest);
    assert s[at] == digits[0] && IsHex(digits[0]);
    if prefix != "" {
      assert s[first] == s[first..at][0] && s[first + 1] == s[first..at][1];
    } else if |digits| > 1 {
      assert s[at + 1] == digits[1] && IsHex(digits[1]);
    } else if rest != "" {
      PeelChar(s, at + 1, rest[0], rest[1..]);
    }
  }

  /** From `at` on stand digits up to `end`, and no more, of value `n`. */
  ghost predicate DigitsAt(s: string, at: nat, end: nat, n: nat) {
    at < end <= |s| && SkipHex(s, at) == end && HexNumber(s[at..end]) == n
  }

  ghost predicate PrefixAt(s: string, first: nat, prefix: string) {
    && (prefix != "" <==> first + 1 < |s| && s[first] == '0' && (s[first + 1] == 'x' || s[first + 1] == 'X'))
    && (prefix != "" ==> |prefix| == 2)
  }

  ghost predicate SignAt(s: string, i: nat, start: nat, sign: string) {
    && i <= |s| && start == SkipSpaces(s, i) < |s|
    && (sign == "" ==> s[start] != '-' && s[start] != '+') && (sign != "" ==> s[start] == sign[0])
  }

  /** A byte of an unsigned long that is at most 0xFFFFFFFF, or of its negative. */
  function Kept(sign: string, n: int): int {
    var m := if n > 0xFFFF_FFFF then 0xFFFF_FFFF else n;
    (if sign == "-" then 0 - m else m) % 256
  }

  lemma ScanHexIs(s: string, i: nat, start: nat, sign: string, first: nat, prefix: string, at: nat, end: nat, n: nat)
    requires first == start + |sign| && at == first + |prefix|
    requires i <= |s| && (sign == "" || sign == "+" || sign == "-")
    ensures SignAt(s, i, start, sign) && PrefixAt(s, first, prefix) && DigitsAt(s, at, end, n) ==>
              ScanHex(s, i) == Some(HexScan(Kept(sign, n), end))
  {
    hide SkipSpaces, SkipHex, HexNumber, AllHex;
  }

  lemma SignAtIs(s: string, i: nat, spaces: string, sign: string, t: string)
    requires Rest(s, i, spaces + (sign + t)) && AllSpaces(spaces) && (sign == "" || sign == "+" || sign == "-")
    requires t != "" && t[0] !in " \t\n\U{000B}\U{000C}\r+-"
    ensures SignAt(s, i, i + |spaces|, sign) && Rest(s, i + |spaces| + |sign|, t)
  {
    hide SkipSpaces, AllSpaces;
    SignBefore(s, i, spaces, sign, t);
    Peel(s, i, spaces, sign + t);
    assert i + |spaces| < |s|;
  }

  lemma PrefixAtIs(s: string, first: nat, prefix: string, digits: string, rest: string)
    requires Rest(s, first, prefix + (digits + rest))
    requires prefix == "" || prefix == "0x" || prefix == "0X"
    requires digits != "" && AllHex(digits) && (rest == "" || (rest[0] != 'x' && rest[0] != 'X'))
    ensures PrefixAt(s, first, prefix) && Rest(s, first + |prefix|, digits + rest)
  {
    hide AllHex;
    PrefixIs(s, first, prefix, digits, rest);
  }

  lemma DigitsAtIs(s: string, at: nat, ds: seq<Hex>, rest: string, end: nat)
    requires end == at + |ds|
    requires AllDigitsHex(ds) && ds != [] && Rest(s, at, HexString(ds) + rest)
    requires rest == "" || rest[0] !in "0123456789abcdefABCDEF"
    ensures Hexadecimal(ds) >= 0 && DigitsAt(s, at, end, Hexadecimal(ds))
  {
    hide *;
    HexNumberIs(ds);
    HexStringIsHex(ds);
    HexAt(s, at, HexString(ds), rest);
  }

  lemma HexAt(s: string, at: nat, digits: string, rest: string)
    requires digits != "" && AllHex(digits) && Rest(s, at, digits + rest)
    requires rest == "" || rest[0] !in "0123456789abcdefABCDEF"
    ensures DigitsAt(s, at, at + |digits|, HexNumber(digits))
  {
    hide HexNumber, SkipHex, AllHex;
    HexThen(s, at, digits, rest);
  }

  /** White space, a sign, a prefix and a number: "%hhx" reads it as an unsigned long, or its negative,
      of which a byte is kept. */
  lemma ScanHexReads(s: string, i: nat, spaces: string, sign: string, prefix: string, ds: seq<Hex>, rest: string)
    requires AllDigitsHex(ds) && ds != []
    requires i <= |s| && Rest(s, i, spaces + (sign + (prefix + (HexString(ds) + rest))))
    requires AllSpaces(spaces) && (sign == "" || sign == "+" || sign == "-")
    requires prefix == "" || prefix == "0x" || prefix == "0X"
    requires rest == "" || (rest[0] != 'x' && rest[0] != 'X')
    requires rest == "" || rest[0] !in "0123456789abcdefABCDEF"
    ensures ScanHex(s, i) == Some(HexScan(Kept(sign, Hexadecimal(ds)), i + |spaces| + |sign| + |prefix| + |ds|))
  {
    hide *;
    HexStringIsHex(ds);
    var first := i + |spaces| + |sign|;
    FirstOfPrefixed(prefix, HexString(ds), rest);
    SignAtIs(s, i, spaces, sign, prefix + (HexString(ds) + rest));
    PrefixAtIs(s, first, prefix, HexString(ds), rest);
    var at := first + |prefix|;
    var end := at + |ds|;
    DigitsAtIs(s, at, ds, rest, end);
    ScanHexIs(s, i, i + |spaces|, sign, first, prefix, at, end, Hexadecimal(ds));
  }

  lemma FirstOfPrefixed(prefix: string, digits: string, rest: string)
    requires prefix == "" || prefix == "0x" || prefix == "0X"
    requires digits != "" && AllHex(digits)
    ensures (prefix + (digits + rest))[0] !in " \t\n\U{000B}\U{000C}\r+-"
  {
    assert IsHex(digits[0]);
  }

  lemma ScanHexFails(s: string, i: nat, spaces: string, sign: string, rest: string)
    requires i <= |s| && s[i..] == spaces + (sign + rest)
    requires AllSpaces(spaces) && (sign == "" || sign == "+" || sign == "-")
    requires rest == "" || rest[0] !in "0123456789abcdefABCDEF \t\n\U{000B}\U{000C}\r+-"
    ensures ScanHex(s, i) == None
  {
    assert AllHex("");
    hide HexNumber, SkipSpaces, SkipHex, AllHex, AllSpaces, IsHex;
    SignBefore(s, i, spaces, sign, rest);
    if rest != "" {
      PeelChar(s, i + |spaces| + |sign|, rest[0], rest[1..]);
    }
    HexThen(s, i + |spaces| + |sign|, "", rest);
  }
}
