/** Setting the clock from the modem's time string (commercial_collar/src/d1_time.c), such as
    24/04/03,18:52:38-28. */
module ClockParser {
  import opened Text

  const EINVAL: int := 22
  const MINIMUM_LENGTH: nat := 16
  const DATE_SIZE: nat := 13   // what fits into the date buffer behind "20"
  const TIME_SIZE: nat := 15

  /** The broken-down time as struct tm counts it: years from 1900, months from 0. */
  datatype Tm = Tm(year: int, mon: int, mday: int, hour: int, min: int, sec: int)

  // ----- The two field parsers -----

  /** The number at position `i`, if it is there and followed by `c`. */
  predicate NumberThen(s: string, i: nat, c: char)
    requires i <= |s|
  {
    var r := StrToL(s, i);
    r.end > i && r.end < |s| && s[r.end] == c
  }

  predicate NumberLast(s: string, i: nat)
    requires i <= |s|
  {
    var r := StrToL(s, i);
    r.end > i && r.end == |s|
  }

  datatype Fields = Bad | Fields(a: int, b: int, c: int)

  function YearMonthDay(s: string): Fields {
    if !NumberThen(s, 0, '-') then Bad
    else
      var y := StrToL(s, 0);
      if !NumberThen(s, y.end + 1, '-') then Bad
      else
        var m := StrToL(s, y.end + 1);
        if m.value < 1 || m.value > 12 || !NumberLast(s, m.end + 1) then Bad
        else
          var d := StrToL(s, m.end + 1);
          if d.value < 1 || d.value > 31 then Bad else Fields(y.value, m.value, d.value)
  }

  /** An hour or minute: a colon in its place leaves the field as it was. */
  datatype Part = Skipped(next: nat) | Read(value: int, next: nat) | Wrong(value: int)

  function ReadPart(s: string, i: nat, hi: int): (p: Part)
    requires i <= |s|
    ensures p.Skipped? || p.Read? ==> p.next <= |s|
  {
    var r := StrToL(s, i);
    if i < |s| && s[i] == ':' then Skipped(i + 1)
    else if NumberThen(s, i, ':') && 0 <= r.value <= hi then Read(r.value, r.end + 1)
    else Wrong(r.value)
  }

  class TmBuffer {
    var year: int
    var mon: int
    var mday: int
    var hour: int
    var min: int
    var sec: int

    function View(): Tm
      reads this
    {
      Tm(year, mon, mday, hour, min, sec)
    }

    constructor (t: Tm)
      ensures View() == t
    {
      year, mon, mday, hour, min, sec := t.year, t.mon, t.mday, t.hour, t.min, t.sec;
    }

    method GetYMD(dateStr: string) returns (ret: int)
      modifies this`year, this`mon, this`mday
      ensures var f := YearMonthDay(dateStr);
              if f.Bad? then ret == -EINVAL && View() == old(View())
              else ret == 0 && View() == old(View()).(year := f.a - 1900, mon := f.b - 1, mday := f.c)
    {
      hide StrToL;
      var pos := 0;
      var r := StrToL(dateStr, pos);
      if r.end == pos || r.end == |dateStr| || dateStr[r.end] != '-' {
        return -EINVAL;
      }
      var y := r.value;
      pos := r.end + 1;
      r := StrToL(dateStr, pos);
      if r.end == pos || r.end == |dateStr| || dateStr[r.end] != '-' {
        return -EINVAL;
      }
      var month := r.value;
      if month < 1 || month > 12 {
        return -EINVAL;
      }
      pos := r.end + 1;
      r := StrToL(dateStr, pos);
      if r.end == pos || r.end != |dateStr| {
        return -EINVAL;
      }
      var day := r.value;
      if day < 1 || day > 31 {
        return -EINVAL;
      }
      year := y - 1900;
      mon := month - 1;
      mday := day;
      return 0;
    }

    method GetHMS(timeStr: string) returns (ret: int)
      modifies this`hour, this`min, this`sec
      ensures HourMinuteSecond(timeStr, old(View())) == Timed(ret, View())
    {
      hide StrToL;
      var pos := 0;
      if pos < |timeStr| && timeStr[pos] == ':' {
        pos := pos + 1;
      } else {
        var r := StrToL(timeStr, pos);
        hour := r.value;
        if r.end == pos {
          return -EINVAL;
        } else if r.end < |timeStr| && timeStr[r.end] == ':' {
          if hour < 0 || hour > 23 {
            return -EINVAL;
          }
          pos := r.end + 1;
        } else {
          return -EINVAL;
        }
      }
      if pos < |timeStr| && timeStr[pos] == ':' {
        pos := pos + 1;
      } else {
        var r := StrToL(timeStr, pos);
        min := r.value;
        if r.end == pos {
          return -EINVAL;
        } else if r.end < |timeStr| && timeStr[r.end] == ':' {
          if min < 0 || min > 59 {
            return -EINVAL;
          }
          pos := r.end + 1;
        } else {
          return -EINVAL;
        }
      }
      var r := StrToL(timeStr, pos);
      sec := r.value;
      if r.end == pos || r.end != |timeStr| {
        return -EINVAL;
      }
      if sec < 0 || sec > 60 {
        return -EINVAL;
      }
      return 0;
    }
  }

  datatype Timed = Timed(ret: int, tm: Tm)

  function Second(s: string, i: nat, t: Tm): Timed
    requires i <= |s|
  {
    var r := StrToL(s, i);
    Timed(if NumberLast(s, i) && 0 <= r.value <= 60 then 0 else -EINVAL, t.(sec := r.value))
  }

  function MinuteSecond(s: string, i: nat, t: Tm): Timed
    requires i <= |s|
  {
    match ReadPart(s, i, 59)
    case Skipped(next) => Second(s, next, t)
    case Read(value, next) => Second(s, next, t.(min := value))
    case Wrong(value) => Timed(-EINVAL, t.(min := value))
  }

  function HourMinuteSecond(s: string, t: Tm): Timed {
    match ReadPart(s, 0, 23)
    case Skipped(next) => MinuteSecond(s, next, t)
    case Read(value, next) => MinuteSecond(s, next, t.(hour := value))
    case Wrong(value) => Timed(-EINVAL, t.(hour := value))
  }

  // ----- The whole string -----

  /** strchr from position `i`: the position found, or the length. */
  function Find(s: string, i: nat, c: char): (j: nat)
    requires i <= |s|
    ensures i <= j <= |s| && (j < |s| ==> s[j] == c)
    ensures forall k :: i <= k < j ==> s[k] != c
    decreases |s| - i
  {
    if i == |s| || s[i] == c then i else Find(s, i + 1, c)
  }

  predicate At(s: string, i: nat, t: string) {
    i + |t| <= |s| && s[i..i + |t|] == t
  }

  /** The string holds `t` somewhere. */
  ghost predicate Contains(s: string, t: string) {
    exists i :: At(s, i, t)
  }

  function Dashed(s: string): (r: string)
    ensures |r| == |s| && forall k :: 0 <= k < |s| ==> r[k] == if s[k] == '/' then '-' else s[k]
  {
    if s == "" then "" else Dashed(s[..|s| - 1]) + [if s[|s| - 1] == '/' then '-' else s[|s| - 1]]
  }

  function Min(a: int, b: int): int {
    if a < b then a else b
  }

  /** Where the time ends: at the first '+', else at the first '-', which may also stand before the
      comma. */
  function SignAt(s: string): nat {
    var plus := Find(s, 0, '+');
    if plus < |s| then plus else Find(s, 0, '-')
  }

  /** The strings the source handles within its buffers, in the modem's format. */
  ghost predicate ModemFormat(s: string) {
    && !Contains(s, "+TIME:")
    && (var comma := Find(s, 0, ',');
        comma < |s| && SignAt(s) < |s| ==> comma <= DATE_SIZE && comma < SignAt(s))
  }

  function DateText(s: string): string {
    "20" + Dashed(s[..Find(s, 0, ',')])
  }

  function TimeText(s: string): string
    requires Find(s, 0, ',') < SignAt(s) <= |s|
  {
    var comma := Find(s, 0, ',');
    s[comma + 1..comma + 1 + Min(SignAt(s) - comma - 1, TIME_SIZE)]
  }

  function SetTime(s: string, t: Tm): Timed
    requires ModemFormat(s)
  {
    if |s| < MINIMUM_LENGTH || Find(s, 0, ',') == |s| || SignAt(s) == |s| then Timed(-EINVAL, t)
    else
      var f := YearMonthDay(DateText(s));
      if f.Bad? then Timed(-EINVAL, t)
      else HourMinuteSecond(TimeText(s), t.(year := f.a - 1900, mon := f.b - 1, mday := f.c))
  }

  /** The loop that turns the slashes of the date into dashes, in place. */
  method RewriteSlashes(date: array<char>)
    modifies date
    ensures date[..] == Dashed(old(date[..]))
  {
    var tmp := 0;
    var dash := Find(date[..], tmp, '/');
    while dash < date.Length
      invariant tmp <= dash <= date.Length
      invariant dash == Find(date[..], tmp, '/')
      invariant forall k :: 0 <= k < tmp ==> date[k] == Dashed(old(date[..]))[k]
      invariant forall k :: tmp <= k < date.Length ==> date[k] == old(date[k])
      decreases date.Length - tmp
    {
      assert forall k :: tmp <= k < dash ==> date[..][k] != '/';
      date[dash] := '-';
      tmp := dash + 1;
      dash := Find(date[..], tmp, '/');
    }
    assert forall k :: tmp <= k < date.Length ==> date[..][k] != '/';
  }

  method BuildDate(s: string, comma: nat) returns (text: string)
    requires comma <= |s| && comma == Find(s, 0, ',')
    ensures text == DateText(s)
  {
    var date := new char[2 + comma](
      i requires 0 <= i < 2 + comma => if i == 0 then '2' else if i == 1 then '0' else s[i - 2]);
    assert date[..] == "20" + s[..comma];
    hide Find;
    RewriteSlashes(date);
    text := date[..];
    assert text == "20" + Dashed(s[..comma]);
  }

  /** The modem's branch of d1_set_5340_time, up to the call that turns the fields into seconds. */
  method SetModemTime(s: string, tm: TmBuffer) returns (ret: int)
    requires ModemFormat(s)
    modifies tm
    ensures SetTime(s, old(tm.View())) == Timed(ret, tm.View())
  {
    hide YearMonthDay, HourMinuteSecond, Find, Contains, DateText;
    if |s| < MINIMUM_LENGTH {
      return -EINVAL;
    }
    var comma := Find(s, 0, ',');
    if comma == |s| {
      return -EINVAL;
    }
    var dash := Find(s, 0, '-');
    var plus := Find(s, 0, '+');
    var time;
    if plus < |s| {
      time := s[comma + 1..comma + 1 + Min(plus - comma - 1, TIME_SIZE)];
    } else if dash < |s| {
      time := s[comma + 1..comma + 1 + Min(dash - comma - 1, TIME_SIZE)];
    } else {
      return -EINVAL;
    }
    assert time == TimeText(s);
    hide TimeText, SignAt, Min;
    var date := BuildDate(s, comma);
    ret := tm.GetYMD(date);
    if ret != 0 {
      return -EINVAL;
    }
    ret := tm.GetHMS(time);
  }

  // ----- The modem's own format -----

  /** A number below 100 as "%02d" prints it. */
  function Two(n: nat): (s: string)
    requires n < 100
    ensures |s| == 2 && AllDigits(s)
  {
    [DigitChar(n / 10), DigitChar(n % 10)]
  }

  lemma TwoIsPadded(n: nat)
    requires n < 100
    ensures Two(n) == Padded(n, 2) && Value(Two(n)) == n
  {
    ValueOfPadded(n, 2);
    if n >= 10 {
      assert Decimal(n / 10) == [DigitChar(n / 10)];
    }
  }

  datatype Clock = Clock(year: nat, month: nat, day: nat, hour: nat, minute: nat, second: nat)

  ghost predicate TwoDigits(c: Clock) {
    c.year < 100 && c.month < 100 && c.day < 100 && c.hour < 100 && c.minute < 100 && c.second < 100
  }

  function DateDigits(c: Clock, separator: char): string
    requires TwoDigits(c)
  {
    Two(c.year) + [separator] + Two(c.month) + [separator] + Two(c.day)
  }

  function TimeDigits(c: Clock): string
    requires TwoDigits(c)
  {
    Two(c.hour) + ":" + Two(c.minute) + ":" + Two(c.second)
  }

  /** YY/MM/DD,hh:mm:ss followed by the sign and the time zone. */
  function ClockText(c: Clock, sign: char, zone: string): string
    requires TwoDigits(c)
  {
    DateDigits(c, '/') + "," + TimeDigits(c) + [sign] + zone
  }

  lemma {:induction false} FindIs(s: string, i: nat, j: nat, c: char)
    requires i <= j <= |s| && (j < |s| ==> s[j] == c)
    requires forall k :: i <= k < j ==> s[k] != c
    ensures Find(s, i, c) == j
    decreases j - i
  {
    if i < j {
      FindIs(s, i + 1, j, c);
    }
  }

  lemma NumberAt(s: string, i: nat, n: nat)
    requires n < 100 && i + 2 <= |s| && s[i..i + 2] == Two(n)
    requires i + 2 < |s| ==> !IsDigit(s[i + 2])
    ensures StrToL(s, i) == Scan(n, i + 2)
  {
    TwoIsPadded(n);
    hide Value, StrToL, IsDigit, Padded;
    StrToLDigits(s, i, Two(n));
  }

  lemma YearAt(s: string, n: nat)
    requires n < 100 && |s| > 4 && s[..4] == "20" + Two(n) && !IsDigit(s[4])
    ensures StrToL(s, 0) == Scan(2000 + n, 4)
  {
    var digits := "20" + Two(n);
    assert digits[..3][..2] == "20" && digits[..3] == "20" + [Two(n)[0]] && digits[..2][..1] == "2" && "2"[..0] == "";
    assert digits[..3][..2][..1] == "2";
    assert Value("2") == 2 && Value("20") == 20;
    assert Value(digits[..3]) == 200 + n / 10;
    assert Value(digits) == 2000 + n;
    assert s[0..4] == digits;
    hide Value, StrToL, IsDigit;
    StrToLDigits(s, 0, digits);
  }

  ghost predicate ValidDate(c: Clock) {
    1 <= c.month <= 12 && 1 <= c.day <= 31
  }

  ghost predicate ValidTime(c: Clock) {
    c.hour <= 23 && c.minute <= 59 && c.second <= 60
  }

  lemma {:induction false} DateParses(c: Clock)
    requires TwoDigits(c)
    ensures YearMonthDay("20" + DateDigits(c, '-')) ==
              if ValidDate(c) then Fields(2000 + c.year, c.month, c.day) else Bad
  {
    var s := "20" + DateDigits(c, '-');
    assert |s| == 10 && s[4] == '-' && s[7] == '-' && !IsDigit('-');
    assert s[..4] == "20" + Two(c.year) && s[5..7] == Two(c.month) && s[8..10] == Two(c.day);
    hide Two, StrToL, DateDigits, IsDigit;
    YearAt(s, c.year);
    NumberAt(s, 5, c.month);
    NumberAt(s, 8, c.day);
  }

  lemma {:induction false} TimeParses(c: Clock, t: Tm)
    requires TwoDigits(c)
    ensures var r := HourMinuteSecond(TimeDigits(c), t);
            && (r.ret == 0 <==> ValidTime(c))
            && (ValidTime(c) ==> r.tm == t.(hour := c.hour, min := c.minute, sec := c.second))
  {
    var s := TimeDigits(c);
    assert |s| == 8 && s[2] == ':' && s[5] == ':' && !IsDigit(':');
    assert s[0..2] == Two(c.hour) && s[3..5] == Two(c.minute) && s[6..8] == Two(c.second);
    assert IsDigit(Two(c.hour)[0]) && IsDigit(Two(c.minute)[0]);
    assert s[0] == s[0..2][0] && s[3] == s[3..5][0];
    assert s[0] != ':' && s[3] != ':';
    hide Two, StrToL, TimeDigits, IsDigit;
    NumberAt(s, 0, c.hour);
    NumberAt(s, 3, c.minute);
    NumberAt(s, 6, c.second);
  }

  ghost predicate Lacks(s: string, c: char) {
    forall k :: 0 <= k < |s| ==> s[k] != c
  }

  lemma LacksConcat(a: string, b: string, c: char)
    ensures Lacks(a + b, c) <==> Lacks(a, c) && Lacks(b, c)
  {
    assert forall k :: 0 <= k < |a| ==> (a + b)[k] == a[k];
    assert forall k :: 0 <= k < |b| ==> (a + b)[|a| + k] == b[k];
  }

  lemma FindPast(a: string, c: char, b: string)
    requires Lacks(a, c)
    ensures Find(a + ([c] + b), 0, c) == |a|
  {
    var s := a + ([c] + b);
    assert forall k :: 0 <= k < |a| ==> s[k] == a[k];
    FindIs(s, 0, |a|, c);
  }

  lemma DatesDashed(c: Clock)
    requires TwoDigits(c)
    ensures Dashed(DateDigits(c, '/')) == DateDigits(c, '-')
  {
    forall n: nat | n < 100
      ensures Lacks(Two(n), '/')
    {
    }
  }

  /** A zone suffix: digits, say; with a '-' before it, it must not hold a '+'. */
  ghost predicate ZoneText(sign: char, zone: string) {
    (sign == '+' || sign == '-') && Lacks(zone, '+') && Lacks(zone, 'T')
  }

  /** How the modem's string falls apart. */
  lemma ClockTextParts(c: Clock, sign: char, zone: string)
    requires TwoDigits(c) && ZoneText(sign, zone)
    ensures var s := ClockText(c, sign, zone);
            && |s| >= 18 && Find(s, 0, ',') == 8 && SignAt(s) == 17
            && s[..8] == DateDigits(c, '/') && s[9..17] == TimeDigits(c)
            && Lacks(s, 'T')
  {
    var d, t := DateDigits(c, '/'), TimeDigits(c);
    assert |d| == 8 && |t| == 8;
    ClockPartsLack(c, sign, zone);
    hide DateDigits, TimeDigits, Lacks, Find, SignAt, TwoDigits, ZoneText;
    var s := ClockText(c, sign, zone);
    assert s == d + ([','] + (t + ([sign] + zone)));
    FindPast(d, ',', t + ([sign] + zone));
    SignFound(d, t, sign, zone);
    assert s[..8] == d && s[9..17] == t;
    hide *;
    LacksConcat(d, ",", 'T');
    LacksConcat(d + ",", t, 'T');
    LacksConcat(d + "," + t, [sign], 'T');
    LacksConcat(d + "," + t + [sign], zone, 'T');
  }

  lemma ClockPartsLack(c: Clock, sign: char, zone: string)
    requires TwoDigits(c) && ZoneText(sign, zone)
    ensures var d, t := DateDigits(c, '/'), TimeDigits(c);
            && Lacks(d, ',') && Lacks(d, '+') && Lacks(d, '-') && Lacks(d, 'T')
            && Lacks(t, '+') && Lacks(t, '-') && Lacks(t, 'T') && Lacks(zone, '+') && Lacks(zone, 'T')
            && Lacks(",", 'T') && Lacks([sign], 'T') && (sign == '+' || sign == '-')
    ensures ClockText(c, sign, zone) == DateDigits(c, '/') + "," + TimeDigits(c) + [sign] + zone
  {
  }

  lemma SignFound(d: string, t: string, sign: char, zone: string)
    requires sign == '+' || sign == '-'
    requires Lacks(d, '+') && Lacks(d, '-') && Lacks(t, '+') && Lacks(t, '-') && Lacks(zone, '+')
    ensures SignAt(d + "," + t + [sign] + zone) == |d| + 1 + |t|
  {
    var s := d + "," + t + [sign] + zone;
    var a := d + "," + t;
    LacksConcat(d, ",", sign);
    LacksConcat(d + ",", t, sign);
    assert s == a + ([sign] + zone);
    hide Lacks, Find;
    FindPast(a, sign, zone);
    if sign == '-' {
      LacksConcat(d, ",", '+');
      LacksConcat(d + ",", t, '+');
      LacksConcat(a, [sign], '+');
      LacksConcat(a + [sign], zone, '+');
      FindNothing(s, '+');
    }
  }

  lemma FindNothing(s: string, c: char)
    requires Lacks(s, c)
    ensures Find(s, 0, c) == |s|
  {
    FindIs(s, 0, |s|, c);
  }

  lemma TagHasT(s: string, i: nat)
    requires At(s, i, "+TIME:")
    ensures !Lacks(s, 'T')
  {
    assert s[i + 1] == s[i..i + 6][1] == 'T';
  }

  lemma NoTimeTag(s: string)
    requires Lacks(s, 'T')
    ensures !Contains(s, "+TIME:")
  {
    hide Lacks, At;
    if Contains(s, "+TIME:") {
      var i :| At(s, i, "+TIME:");
      TagHasT(s, i);
    }
  }

  lemma {:induction false} ClockTextTexts(c: Clock, sign: char, zone: string)
    requires TwoDigits(c) && ZoneText(sign, zone)
    ensures var s := ClockText(c, sign, zone);
            && |s| >= MINIMUM_LENGTH && ModemFormat(s)
            && Find(s, 0, ',') < SignAt(s) < |s|
            && DateText(s) == "20" + DateDigits(c, '-') && TimeText(s) == TimeDigits(c)
  {
    ClockTextParts(c, sign, zone);
    NoTimeTag(ClockText(c, sign, zone));
    DatesDashed(c);
    hide Find, SignAt, Contains, DateDigits, TimeDigits, Dashed, ClockText, Lacks;
  }

  lemma {:induction false} SetTimeParses(c: Clock, sign: char, zone: string, t: Tm)
    requires TwoDigits(c) && ZoneText(sign, zone)
    ensures var s := ClockText(c, sign, zone);
            ModemFormat(s) && SetTime(s, t) ==
              if ValidDate(c)
              then HourMinuteSecond(TimeDigits(c), t.(year := 100 + c.year, mon := c.month - 1, mday := c.day))
              else Timed(-EINVAL, t)
  {
    hide *;
    ClockTextTexts(c, sign, zone);
    DateParses(c);
    SetTimeOfParts(ClockText(c, sign, zone), t);
  }

  lemma SetTimeOfParts(s: string, t: Tm)
    requires |s| >= MINIMUM_LENGTH && ModemFormat(s) && Find(s, 0, ',') < |s| && SignAt(s) < |s|
    ensures var f := YearMonthDay(DateText(s));
            SetTime(s, t) ==
              if f.Bad? then Timed(-EINVAL, t)
              else HourMinuteSecond(TimeText(s), t.(year := f.a - 1900, mon := f.b - 1, mday := f.c))
  {
    hide Find, SignAt, ModemFormat, YearMonthDay, HourMinuteSecond, DateText, TimeText;
  }

  /** The parser inverts the modem's format: every string of six two-digit fields and a zone suffix
      is accepted exactly when the fields are in range, and then yields exactly those fields.  The
      day is only compared with 31, whatever the month. */
  lemma {:induction false} ParserInvertsFormat(c: Clock, sign: char, zone: string, t: Tm)
    requires TwoDigits(c) && ZoneText(sign, zone)
    ensures ModemFormat(ClockText(c, sign, zone))
    ensures var r := SetTime(ClockText(c, sign, zone), t);
            && (r.ret == 0 <==> ValidDate(c) && ValidTime(c))
            && (ValidDate(c) && ValidTime(c) ==>
                  r == Timed(0, Tm(100 + c.year, c.month - 1, c.day, c.hour, c.minute, c.second)))
  {
    SetTimeParses(c, sign, zone, t);
    TimeParses(c, t.(year := 100 + c.year, mon := c.month - 1, mday := c.day));
    hide ModemFormat, SetTime, HourMinuteSecond, TimeDigits, ClockText, ValidDate, ValidTime, TwoDigits, ZoneText;
  }

  // ----- Any text -----

  /** Three numbers with dashes between them, and nothing else. */
  ghost predicate DateIs(s: string, a: string, b: string, c: string, y: int, m: int, d: int) {
    s == a + "-" + b + "-" + c && Whole(a, y) && Whole(b, m) && Whole(c, d)
  }

  lemma DateReads(s: string) returns (i: nat, j: nat)
    requires !YearMonthDay(s).Bad?
    ensures 0 < i && i + 1 < j < |s| - 1 && s[i] == '-' && s[j] == '-'
    ensures StrToL(s, 0).end == i && StrToL(s, i + 1).end == j && StrToL(s, j + 1).end == |s|
    ensures var f := YearMonthDay(s);
            && f.a == StrToL(s, 0).value && f.b == StrToL(s, i + 1).value && f.c == StrToL(s, j + 1).value
            && 1 <= f.b <= 12 && 1 <= f.c <= 31
  {
    hide StrToL;
    i := StrToL(s, 0).end;
    j := StrToL(s, i + 1).end;
  }

  /** The text from `i` to `e`. */
  predicate Cut(s: string, i: nat, e: nat, p: string) {
    i <= e <= |s| && p == s[i..e]
  }

  lemma WholeAt(s: string, i: nat, e: nat) returns (p: string)
    requires i < e <= |s| && StrToL(s, i).end == e
    ensures Cut(s, i, e, p) && Whole(p, StrToL(s, i).value)
  {
    hide StrToL, Whole;
    ReadIsWhole(s, i);
    p := s[i..e];
  }

  lemma ThreeParts(s: string, i: nat, j: nat, a: string, b: string, c: string)
    requires i < j < |s| && s[i] == '-' && s[j] == '-'
    requires Cut(s, 0, i, a) && Cut(s, i + 1, j, b) && Cut(s, j + 1, |s|, c)
    ensures s == a + "-" + b + "-" + c
  {
  }

  lemma DateIsOf(s: string, a: string, b: string, c: string, y: int, m: int, d: int)
    requires s == a + "-" + b + "-" + c && Whole(a, y) && Whole(b, m) && Whole(c, d)
    ensures DateIs(s, a, b, c, y, m, d)
  {
    hide Whole;
  }

  /** An accepted date falls apart like that. */
  lemma DateFallsApart(s: string) returns (a: string, b: string, c: string)
    requires !YearMonthDay(s).Bad?
    ensures var f := YearMonthDay(s);
            DateIs(s, a, b, c, f.a, f.b, f.c) && 1 <= f.b <= 12 && 1 <= f.c <= 31
  {
    hide *;
    var i, j := DateReads(s);
    a := WholeAt(s, 0, i);
    b := WholeAt(s, i + 1, j);
    c := WholeAt(s, j + 1, |s|);
    ThreeParts(s, i, j, a, b, c);
    DateIsOf(s, a, b, c, StrToL(s, 0).value, StrToL(s, i + 1).value, StrToL(s, j + 1).value);
  }

  lemma DateParts(s: string, a: string, b: string, c: string)
    requires s == a + "-" + b + "-" + c
    ensures var i, j := |a| + 1, |a| + 1 + |b| + 1;
            && |s| == j + |c| && s[0..|a|] == a && s[|a|] == '-' && s[i..i + |b|] == b && s[i + |b|] == '-'
            && s[j..j + |c|] == c
  {
  }

  /** And whatever falls apart like that, with month and day in range, is accepted. */
  lemma DateIsTaken(s: string, a: string, b: string, c: string, y: int, m: int, d: int)
    requires DateIs(s, a, b, c, y, m, d)
    ensures YearMonthDay(s) == if 1 <= m <= 12 && 1 <= d <= 31 then Fields(y, m, d) else Bad
  {
    hide StrToL;
    var i, j := |a| + 1, |a| + 1 + |b| + 1;
    DateParts(s, a, b, c);
    NotDigits();
    hide IsDigit;
    WholeIsRead(s, 0, a, y);
    WholeIsRead(s, i, b, m);
    WholeIsRead(s, j, c, d);
    assert |a| > 0 && |b| > 0 && |c| > 0;
    hide Whole, DateIs;
  }

  lemma NotDigits()
    ensures !IsDigit('-') && !IsDigit(':')
  {
  }

  /** The date parser accepts a text if and only if it is three numbers with dashes between them, the
      month from 1 to 12 and the day from 1 to 31; each number may have white space and a sign in
      front. */
  lemma DateAcceptedIff(s: string, y: int, m: int, d: int)
    ensures YearMonthDay(s) == Fields(y, m, d) <==>
              1 <= m <= 12 && 1 <= d <= 31 && exists a, b, c :: DateIs(s, a, b, c, y, m, d)
  {
    hide DateIs, YearMonthDay;
    if YearMonthDay(s) == Fields(y, m, d) {
      var a, b, c := DateFallsApart(s);
    }
    if 1 <= m <= 12 && 1 <= d <= 31 && exists a, b, c :: DateIs(s, a, b, c, y, m, d) {
      var a, b, c :| DateIs(s, a, b, c, y, m, d);
      DateIsTaken(s, a, b, c, y, m, d);
    }
  }

  // The time, part by part.

  /** An hour or minute in range with its colon, or the colon alone, which stands for the old value. */
  ghost predicate PartIs(p: string, before: int, v: int, hi: int) {
    || (p == ":" && v == before)
    || (0 <= v <= hi && p != "" && p[|p| - 1] == ':' && p[0] != ':' && Whole(p[..|p| - 1], v))
  }

  /** A text that starts with such a part is read on behind it. */
  lemma PartIsRead(s: string, i: nat, p: string, v: int, before: int, hi: int)
    requires i + |p| <= |s| && s[i..i + |p|] == p && PartIs(p, before, v, hi)
    ensures ReadPart(s, i, hi) == if p == ":" then Skipped(i + 1) else Read(v, i + |p|)
  {
    hide StrToL;
    NotDigits();
    if p == ":" {
      assert s[i] == s[i..i + 1][0];
    } else {
      var n := |p| - 1;
      assert s[i] == p[0] && s[i + n] == p[n];
      assert s[i..i + n] == p[..n];
      hide IsDigit;
      WholeIsRead(s, i, p[..n], v);
      assert n > 0;
    }
  }

  lemma PartWasRead(s: string, i: nat, hi: int, before: int) returns (p: string, v: int)
    requires i <= |s| && !ReadPart(s, i, hi).Wrong?
    ensures var r := ReadPart(s, i, hi);
            && r.next <= |s| && i < r.next && Cut(s, i, r.next, p) && PartIs(p, before, v, hi)
            && v == if r.Skipped? then before else r.value
  {
    hide StrToL;
    var r := ReadPart(s, i, hi);
    p := s[i..r.next];
    v := if r.Skipped? then before else r.value;
    if r.Read? {
      ReadIsWhole(s, i);
      assert p[..|p| - 1] == s[i..r.next - 1] && p[0] == s[i] && p[|p| - 1] == s[r.next - 1];
    }
    hide Whole;
  }

  ghost predicate TimeIs(s: string, a: string, b: string, c: string, t: Tm, u: Tm) {
    && s == a + b + c && PartIs(a, t.hour, u.hour, 23) && PartIs(b, t.min, u.min, 59)
    && Whole(c, u.sec) && 0 <= u.sec <= 60 && u == t.(hour := u.hour, min := u.min, sec := u.sec)
  }

  lemma TimeParts(s: string, a: string, b: string, c: string)
    requires s == a + b + c
    ensures var i, j := |a|, |a| + |b|;
            |s| == j + |c| && s[0..i] == a && s[i..j] == b && s[j..j + |c|] == c
  {
  }

  lemma PartNotEmpty(p: string, before: int, v: int, hi: int)
    requires PartIs(p, before, v, hi)
    ensures p != "" && (p == ":" ==> v == before)
  {
  }

  /** The part read at position `i`, and where the next one starts. */
  predicate PartAt(s: string, i: nat, hi: int, before: int, v: int, next: nat) {
    && i <= |s| && next <= |s|
    && (ReadPart(s, i, hi) == Read(v, next) || (v == before && ReadPart(s, i, hi) == Skipped(next)))
  }

  lemma PartFound(s: string, i: nat, e: nat, p: string, v: int, before: int, hi: int)
    requires Cut(s, i, e, p) && PartIs(p, before, v, hi)
    ensures PartAt(s, i, hi, before, v, e)
  {
    PartIsRead(s, i, p, v, before, hi);
    PartNotEmpty(p, before, v, hi);
    hide ReadPart, PartIs;
  }

  lemma PartsTaken(s: string, t: Tm, u: Tm, i: nat, j: nat)
    requires PartAt(s, 0, 23, t.hour, u.hour, i) && PartAt(s, i, 59, t.min, u.min, j)
    requires NumberLast(s, j) && StrToL(s, j).value == u.sec && 0 <= u.sec <= 60
    requires u == t.(hour := u.hour, min := u.min, sec := u.sec)
    ensures HourMinuteSecond(s, t) == Timed(0, u)
  {
    hide ReadPart, NumberLast, StrToL;
  }

  lemma TimeMeans(s: string, a: string, b: string, c: string, t: Tm, u: Tm)
    requires TimeIs(s, a, b, c, t, u)
    ensures var i, j := |a|, |a| + |b|;
            Cut(s, 0, i, a) && Cut(s, i, j, b) && Cut(s, j, |s|, c) && |s| == j + |c|
    ensures PartIs(a, t.hour, u.hour, 23) && PartIs(b, t.min, u.min, 59) && Whole(c, u.sec) && 0 <= u.sec <= 60
    ensures u == t.(hour := u.hour, min := u.min, sec := u.sec)
  {
    TimeParts(s, a, b, c);
    hide PartIs, Whole;
  }

  lemma TimeIsTaken(s: string, a: string, b: string, c: string, t: Tm, u: Tm)
    requires TimeIs(s, a, b, c, t, u)
    ensures HourMinuteSecond(s, t) == Timed(0, u)
  {
    hide *;
    TimeMeans(s, a, b, c, t, u);
    var i, j := |a|, |a| + |b|;
    PartFound(s, 0, i, a, u.hour, t.hour, 23);
    PartFound(s, i, j, b, u.min, t.min, 59);
    SecondIsRead(s, j, c, u.sec);
    PartsTaken(s, t, u, i, j);
  }

  lemma SecondIsRead(s: string, i: nat, c: string, v: int)
    requires Cut(s, i, |s|, c) && Whole(c, v)
    ensures NumberLast(s, i) && StrToL(s, i).value == v
  {
    hide StrToL, IsDigit;
    WholeIsRead(s, i, c, v);
    assert |c| > 0;
  }

  lemma TimeFallsApart(s: string, t: Tm) returns (a: string, b: string, c: string)
    requires HourMinuteSecond(s, t).ret == 0
    ensures TimeIs(s, a, b, c, t, HourMinuteSecond(s, t).tm)
  {
    hide *;
    var i, j := TimeReads(s, t);
    var u := HourMinuteSecond(s, t).tm;
    var h, m;
    a, h := PartWasRead(s, 0, 23, t.hour);
    b, m := PartWasRead(s, i, 59, t.min);
    c := WholeAt(s, j, |s|);
    TimeIsOf(s, i, j, a, b, c, t, u);
  }

  /** Where the parts of an accepted time end, and what they set. */
  lemma TimeReads(s: string, t: Tm) returns (i: nat, j: nat)
    requires HourMinuteSecond(s, t).ret == 0
    ensures var h := ReadPart(s, 0, 23);
            && !h.Wrong? && i == h.next <= |s|
            && var m := ReadPart(s, i, 59);
               && !m.Wrong? && j == m.next < |s| && StrToL(s, j).end == |s|
               && 0 <= StrToL(s, j).value <= 60
               && HourMinuteSecond(s, t).tm == t.(hour := if h.Skipped? then t.hour else h.value,
                                                  min := if m.Skipped? then t.min else m.value, sec := StrToL(s, j).value)
  {
    hide StrToL, ReadPart;
    i := ReadPart(s, 0, 23).next;
    j := ReadPart(s, i, 59).next;
  }

  lemma TimeIsOf(s: string, i: nat, j: nat, a: string, b: string, c: string, t: Tm, u: Tm)
    requires Cut(s, 0, i, a) && Cut(s, i, j, b) && Cut(s, j, |s|, c)
    requires PartIs(a, t.hour, u.hour, 23) && PartIs(b, t.min, u.min, 59) && Whole(c, u.sec) && 0 <= u.sec <= 60
    requires u == t.(hour := u.hour, min := u.min, sec := u.sec)
    ensures TimeIs(s, a, b, c, t, u)
  {
    hide PartIs, Whole;
    assert s == a + b + c;
  }

  /** The time parser accepts a text if and only if it is an hour up to 23, a minute up to 59, each with
      its colon or a colon alone, and a second up to 60; it then sets just these. */
  lemma TimeAcceptedIff(s: string, t: Tm, u: Tm)
    ensures HourMinuteSecond(s, t) == Timed(0, u) <==> exists a, b, c :: TimeIs(s, a, b, c, t, u)
  {
    hide TimeIs, HourMinuteSecond;
    if HourMinuteSecond(s, t) == Timed(0, u) {
      var a, b, c := TimeFallsApart(s, t);
    }
    if a, b, c :| TimeIs(s, a, b, c, t, u) {
      TimeIsTaken(s, a, b, c, t, u);
    }
  }

  /** What a refused time leaves behind: the number read last stands in its field all the same, the
      fields behind it and the date are untouched. */
  lemma RefusedTimeLeaves(s: string, t: Tm)
    requires HourMinuteSecond(s, t).ret != 0
    ensures var r, hour := HourMinuteSecond(s, t), ReadPart(s, 0, 23);
            && r.ret == -22
            && r.tm.hour == (if s != "" && s[0] == ':' then t.hour else StrToL(s, 0).value)
            && (hour.Wrong? ==> r.tm == t.(hour := StrToL(s, 0).value))
            && (!hour.Wrong? ==>
                  var i := hour.next;
                  && r.tm.min == (if i < |s| && s[i] == ':' then t.min else StrToL(s, i).value)
                  && (ReadPart(s, i, 59).Wrong? ==> r.tm == t.(hour := r.tm.hour, min := r.tm.min))
                  && (!ReadPart(s, i, 59).Wrong? ==>
                        r.tm == t.(hour := r.tm.hour, min := r.tm.min,
                                   sec := StrToL(s, ReadPart(s, i, 59).next).value)))
  {
    hide StrToL;
  }

  // The whole string.

  /** The sign is the first plus, or the first dash of a string without plus. */
  ghost predicate SignIs(d: string, time: string, sign: char, zone: string) {
    || (sign == '+' && Lacks(d, '+') && Lacks(time, '+'))
    || (sign == '-' && Lacks(d, '-') && Lacks(time, '-') && Lacks(d, '+') && Lacks(time, '+') && Lacks(zone, '+'))
  }

  lemma SignFoundAt(d: string, time: string, sign: char, zone: string)
    requires SignIs(d, time, sign, zone)
    ensures SignAt(d + "," + time + [sign] + zone) == |d| + 1 + |time|
  {
    var s := d + "," + time + [sign] + zone;
    var a := d + "," + time;
    assert Lacks(",", '+') && Lacks(",", '-') && Lacks([sign], if sign == '+' then '-' else '+');
    LacksConcat(d, ",", sign);
    LacksConcat(d + ",", time, sign);
    assert s == a + ([sign] + zone);
    hide Lacks, Find;
    FindPast(a, sign, zone);
    if sign == '-' {
      LacksConcat(d, ",", '+');
      LacksConcat(d + ",", time, '+');
      LacksConcat(a, [sign], '+');
      LacksConcat(a + [sign], zone, '+');
      FindNothing(s, '+');
    }
  }

  lemma PartsFound(s: string, d: string, time: string, sign: char, zone: string)
    requires s == d + "," + time + [sign] + zone && SignIs(d, time, sign, zone) && Lacks(d, ',')
    ensures Find(s, 0, ',') == |d| && SignAt(s) == |d| + 1 + |time| < |s|
    ensures Cut(s, 0, |d|, d) && Cut(s, |d| + 1, |d| + 1 + |time|, time)
  {
    hide *;
    SignFoundAt(d, time, sign, zone);
    CommaFirst(d, time, sign, zone);
    FindPast(d, ',', time + ([sign] + zone));
    CutsOut(d, time, sign, zone);
  }

  lemma CommaFirst(d: string, time: string, sign: char, zone: string)
    ensures d + "," + time + [sign] + zone == d + ([','] + (time + ([sign] + zone)))
  {
  }

  lemma CutsOut(d: string, time: string, sign: char, zone: string)
    ensures var s := d + "," + time + [sign] + zone;
            Cut(s, 0, |d|, d) && Cut(s, |d| + 1, |d| + 1 + |time|, time) && |d| + 1 + |time| < |s|
  {
    CommaFirst(d, time, sign, zone);
    var s := d + ([','] + (time + ([sign] + zone)));
    assert s[0..|d|] == d && s[|d| + 1..] == time + ([sign] + zone);
    assert s[|d| + 1..][..|time|] == time;
  }

  lemma CutShort(s: string, i: nat, time: string)
    requires Cut(s, i, i + |time|, time)
    ensures |time| > 15 ==> Cut(s, i, i + 15, time[..15])
  {
    assert |time| > 15 ==> s[i..i + 15] == time[..15];
  }

  lemma TextsAre(s: string, d: string, time: string)
    requires Find(s, 0, ',') == |d| && SignAt(s) == |d| + 1 + |time| < |s|
    requires Cut(s, 0, |d|, d) && Cut(s, |d| + 1, |d| + 1 + |time|, time)
    ensures DateText(s) == "20" + Dashed(d)
    ensures TimeText(s) == if |time| <= 15 then time else time[..15]
  {
    CutShort(s, |d| + 1, time);
    hide Find, SignAt, Dashed;
  }

  lemma SetTimeCases(s: string, t: Tm)
    requires ModemFormat(s) && Find(s, 0, ',') < |s| && Find(s, 0, ',') < SignAt(s) < |s|
    ensures var f := YearMonthDay(DateText(s));
            SetTime(s, t) ==
              if |s| < 16 || f.Bad? then Timed(-22, t)
              else HourMinuteSecond(TimeText(s), t.(year := f.a - 1900, mon := f.b - 1, mday := f.c))
  {
    hide Find, SignAt, ModemFormat, YearMonthDay, HourMinuteSecond, DateText, TimeText;
  }

  /** A string of the modem's format with its comma and sign: 16 characters are enough, the slashes of
      the date become dashes behind "20", at most 15 characters of the time are looked at, and the
      clock is set if both parsers accept. */
  lemma ClockIsSet(s: string, d: string, time: string, sign: char, zone: string, t: Tm)
    requires s == d + "," + time + [sign] + zone && SignIs(d, time, sign, zone) && Lacks(d, ',')
    requires ModemFormat(s)
    ensures var f := YearMonthDay("20" + Dashed(d));
            SetTime(s, t) ==
              if |s| < 16 || f.Bad? then Timed(-22, t)
              else HourMinuteSecond(if |time| <= 15 then time else time[..15],
                                    t.(year := f.a - 1900, mon := f.b - 1, mday := f.c))
  {
    hide *;
    PartsFound(s, d, time, sign, zone);
    TextsAre(s, d, time);
    SetTimeCases(s, t);
  }

  /** A string of the modem's format without comma or sign is refused. */
  lemma ClockIsNotSet(s: string, t: Tm)
    requires ModemFormat(s) && (Lacks(s, ',') || (Lacks(s, '+') && Lacks(s, '-')))
    ensures SetTime(s, t) == Timed(-22, t)
  {
    hide ModemFormat, YearMonthDay, HourMinuteSecond, DateText, TimeText;
    if Lacks(s, ',') {
      FindNothing(s, ',');
    } else {
      FindNothing(s, '+');
      FindNothing(s, '-');
    }
    hide Find, Lacks;
  }
}
