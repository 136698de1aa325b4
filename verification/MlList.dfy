/** The activity records of a telemetry message (c_modules/json/src/d1_json.c, ml_get_json_list),
    read from the file-backed queue (module FileQueue). */
module MlList {
  import FQ = FileQueue
  import opened Json
  import opened Budget
  import opened Messages
  import opened Options

  const ML_MINIMUM: int := 200
  const ET_SPACE: nat := 20

  /** `start` and `end` are in milliseconds; `entry` is the object the record is printed as. */
  datatype Record = Record(start: nat, end: nat, entry: Json)

  /** An int16_t. */
  function Int16(x: int): int {
    (x + 0x8000) % 0x1_0000 - 0x8000
  }

  function Header(r: Record, version: string): seq<Field> {
    [Field("ST", Number(r.start / 1000)), Field("MV", Str(version)), Field("AV", Str(version)),
     Field("RV", Str(version))]
  }

  function HeaderObject(r: Record, version: string): Json {
    Object(Header(r, version) + [Field("AT", Array([]))])
  }

  datatype Listed = Listed(taken: seq<Record>, left: seq<Record>, remaining: int)

  function Take(records: seq<Record>, remaining: int): (l: Listed)
    ensures |l.taken| + |l.left| == |records|
    decreases |records|
  {
    if records == [] || Below(remaining, Width(records[0].entry) + ET_SPACE) then Listed([], records, remaining)
    else
      var l := Take(records[1..], Int16(remaining - Width(records[0].entry)));
      l.(taken := [records[0]] + l.taken)
  }

  function Entries(records: seq<Record>): (r: seq<Json>)
    ensures |r| == |records|
  {
    if records == [] then [] else [records[0].entry] + Entries(records[1..])
  }

  lemma {:induction false} EntriesAppend(records: seq<Record>, r: Record)
    ensures Entries(records + [r]) == Entries(records) + [r.entry]
    decreases |records|
  {
    if records != [] {
      EntriesAppend(records[1..], r);
      assert (records + [r])[1..] == records[1..] + [r];
    }
  }

  /** The ML object with the records listed in it; the end time of the last one closes it. */
  function MlObject(first: Record, version: string, taken: seq<Record>): Json {
    Object(Header(first, version) + [Field("AT", Array(Entries(taken)))]
           + if taken == [] then [] else [Field("ET", Number(taken[|taken| - 1].end / 1000))])
  }

  datatype Emitted = Emitted(added: seq<Field>, left: seq<Record>, remaining: int, ret: int)

  function Emit(records: seq<Record>, version: string, remaining: int): Emitted {
    if records == [] then Emitted([], [], remaining, 0)
    else if remaining < ML_MINIMUM then Emitted([], records, remaining, 1)
    else
      var l := Take(records, Int16(remaining - Width(HeaderObject(records[0], version))));
      Emitted([Field("ML", MlObject(records[0], version, l.taken))], l.left,
              if l.taken == [] then l.remaining else Int16(l.remaining - ET_SPACE),
              if l.left == [] then 0 else 1)
  }

  /** Nothing is lost: the records taken and those left are the queue. */
  lemma {:induction false} TakePartitions(records: seq<Record>, remaining: int)
    ensures var l := Take(records, remaining); l.taken + l.left == records
    decreases |records|
  {
    hide Width, Below, Int16;
    if records != [] {
      TakePartitions(records[1..], Int16(remaining - Width(records[0].entry)));
      var l := Take(records[1..], Int16(remaining - Width(records[0].entry)));
      assert ([records[0]] + l.taken) + l.left == [records[0]] + (l.taken + l.left);
    }
  }

  /** The outcome when `taken` have been listed, `records` come next and `remaining` is left. */
  function Resumed(taken: seq<Record>, records: seq<Record>, remaining: int): Listed {
    var l := Take(records, remaining);
    Listed(taken + l.taken, l.left, l.remaining)
  }

  lemma ResumedStart(records: seq<Record>, remaining: int)
    ensures Resumed([], records, remaining) == Take(records, remaining)
  {
    assert [] + Take(records, remaining).taken == Take(records, remaining).taken;
  }

  lemma ResumedStep(taken: seq<Record>, records: seq<Record>, remaining: int)
    requires records != []
    ensures var w := Width(records[0].entry);
            Resumed(taken, records, remaining) ==
              if Below(remaining, w + ET_SPACE) then Listed(taken, records, remaining)
              else Resumed(taken + [records[0]], records[1..], Int16(remaining - w))
  {
    hide Width, Below, Int16;
    assert taken + [] == taken;
    var rest := Take(records[1..], Int16(remaining - Width(records[0].entry))).taken;
    assert taken + ([records[0]] + rest) == (taken + [records[0]]) + rest;
  }

  lemma ResumedEnd(taken: seq<Record>, remaining: int)
    ensures Resumed(taken, [], remaining) == Listed(taken, [], remaining)
  {
    assert taken + [] == taken;
  }

  lemma MlObjectIs(first: Record, version: string, taken: seq<Record>)
    ensures var listed := Header(first, version) + [Field("AT", Array(Entries(taken)))];
            MlObject(first, version, taken) ==
              if taken == [] then Object(listed)
              else Object(listed + [Field("ET", Number(taken[|taken| - 1].end / 1000))])
  {
    hide Header, Entries;
    var listed := Header(first, version) + [Field("AT", Array(Entries(taken)))];
    assert listed + [] == listed;
  }

  // ----- What the reader of the file queue shows -----

  const TEMP_SPACE: nat := 256

  /** Every record prints into the temporary buffer. */
  ghost predicate Printable(decode: FQ.Bytes -> Record) {
    forall b :: 0 < Width(decode(b).entry) < TEMP_SPACE
  }

  function Decoded(items: seq<FQ.Bytes>, decode: FQ.Bytes -> Record): (r: seq<Record>)
    ensures |r| == |items|
    ensures forall k :: 0 <= k < |r| ==> r[k] == decode(items[k])
  {
    seq(|items|, k requires 0 <= k < |items| => decode(items[k]))
  }

  /** `ahead` are the records up to the first slot without one.  If that slot holds an empty file
      (`blank`), peeks there succeed without data, and the buffer still holds `last`: the last record,
      or, when there is none, what was on the stack. */
  datatype Shown = Shown(ahead: seq<Record>, blank: bool, last: Record)

  function ShownFrom(files: FQ.Files, r: nat, hi: nat, decode: FQ.Bytes -> Record, stack: FQ.Bytes): Shown
    requires r <= hi
  {
    var items := FQ.Ahead(files, r, hi);
    Shown(Decoded(items, decode), FQ.BlankAt(files, r + |items|),
          decode(if items == [] then stack else items[|items| - 1]))
  }

  function Copies(x: Record, n: nat): (r: seq<Record>)
    ensures |r| == n && forall k :: 0 <= k < n ==> r[k] == x
  {
    seq(n, k => x)
  }

  const ENOUGH: nat := 0x1_0000   // more than a 16-bit budget can pay for

  /** The records as the loop sees them: at an empty file the last one comes again and again. */
  function Records(s: Shown): seq<Record> {
    s.ahead + if s.blank then Copies(s.last, ENOUGH) else []
  }

  function Min(a: nat, b: nat): nat {
    if a < b then a else b
  }

  /** An int16_t seen as 16 bits. */
  function Unsigned16(x: int): int {
    if x < 0 then x + 0x1_0000 else x
  }

  predicate Fits16(x: int) {
    -0x8000 <= x < 0x8000
  }

  /** Whatever the sign, what a record is charged brings the 16 bits down by its width. */
  lemma ChargeDecreases(left: int, w: nat)
    requires Fits16(left) && 0 < w < TEMP_SPACE && !Below(left, w + ET_SPACE)
    ensures Fits16(Int16(left - w)) && 0 <= Unsigned16(Int16(left - w)) == Unsigned16(left) - w
  {
  }

  datatype Cursor = Cursor(slot: nat, files: FQ.Files, ready: bool)

  function CursorOf(reader: FQ.FileQueue): Cursor
    reads reader, reader.dir
  {
    Cursor(reader.curIdx, reader.dir.files, reader.dir.ready)
  }

  /** The reader, opened at slot `r`, after `k` gets that found data and the peek that followed; a
      read without data takes the semaphore. */
  function CursorAfter(files: FQ.Files, r: nat, hi: nat, k: nat, ready: bool): Cursor {
    Cursor(r + k, FQ.Popped(files, r, k), ready && k < |FQ.Ahead(files, r, hi)|)
  }

  datatype Peek = Peek(found: bool, buffer: FQ.Bytes)

  /** What that peek shows: an empty file is found, but leaves the buffer alone. */
  function PeekAfter(files: FQ.Files, r: nat, hi: nat, k: nat, buffer: FQ.Bytes): Peek
    requires r <= hi
  {
    var items := FQ.Ahead(files, r, hi);
    if k < |items| then Peek(true, items[k]) else Peek(FQ.BlankAt(files, r + |items|), buffer)
  }

  ghost predicate Bounds(files: FQ.Files, r: nat, hi: nat) {
    r <= hi <= FQ.INT_MAX && FQ.LiveBelow(files, hi)
  }

  /** What a get does there. */
  lemma GetMoves(files: FQ.Files, r: nat, hi: nat, k: nat, ready: bool)
    requires Bounds(files, r, hi) && k <= |FQ.Ahead(files, r, hi)|
    ensures var f, m := FQ.Popped(files, r, k), |FQ.Ahead(files, r, hi)|;
            && (FQ.Read(f, r + k, ready).Item? <==> k < m)
            && (FQ.ReadyAfter(f, r + k, ready) <==> ready && k < m)
            && (k < m ==> FQ.Removed(f, r + k) == FQ.Popped(files, r, k + 1) && Min(k + 1, m) == k + 1)
            && (k == m ==> Min(k + 1, m) == k)
  {
    FQ.ReadAfter(files, r, hi, k, ready);
    hide FQ.Ahead, FQ.Removed, FQ.Read, FQ.Name;
  }

  /** fqueue_get, its result ignored: at an empty file it takes nothing. */
  method GetOne(reader: FQ.FileQueue, size: nat, ghost files: FQ.Files, ghost r: nat, ghost hi: nat, ghost k: nat)
    requires Bounds(files, r, hi) && k <= |FQ.Ahead(files, r, hi)|
    requires reader.mode == FQ.FQ_READ && reader.curIdx == r + k && reader.dir.files == FQ.Popped(files, r, k)
    modifies reader`curIdx, reader.dir
    ensures CursorOf(reader) ==
              Cursor(r + Min(k + 1, |FQ.Ahead(files, r, hi)|), FQ.Popped(files, r, Min(k + 1, |FQ.Ahead(files, r, hi)|)),
                     old(reader.dir.ready) && k < |FQ.Ahead(files, r, hi)|)
  {
    GetMoves(files, r, hi, k, reader.dir.ready);
    hide FQ.Ahead, FQ.Removed, FQ.Read, FQ.Name, FQ.Popped, FQ.ReadyAfter, Min, Bounds;
    var ret, data, fits := reader.ReadNext(size, true);
  }

  method PeekOne(reader: FQ.FileQueue, buffer: FQ.Bytes, ghost files: FQ.Files, ghost r: nat, ghost hi: nat, ghost k: nat)
    returns (found: bool, next: FQ.Bytes)
    requires Bounds(files, r, hi) && k <= |FQ.Ahead(files, r, hi)|
    requires reader.mode == FQ.FQ_READ && reader.curIdx == r + k && reader.dir.files == FQ.Popped(files, r, k)
    modifies reader`curIdx, reader.dir
    ensures CursorOf(reader) == CursorAfter(files, r, hi, k, old(reader.dir.ready))
    ensures Peek(found, next) == PeekAfter(files, r, hi, k, buffer)
  {
    FQ.ReadAfter(files, r, hi, k, reader.dir.ready);
    hide FQ.Ahead, FQ.Removed, FQ.Read, FQ.Name, FQ.Popped;
    var ret, data, fits := reader.ReadNext(|buffer|, false);
    found := ret == 0;
    next := if data != [] then data else buffer;
  }

  function Building(header: seq<Field>, taken: seq<Record>): seq<Field> {
    header + [Field("AT", Array(Entries(taken)))]
  }

  lemma MinNext(n: nat, m: nat)
    ensures Min(Min(n, m) + 1, m) == Min(n + 1, m) && Min(n, m) <= m
    ensures Min(0, m) == 0
  {
  }

  /** The peek after `n` records shows the next record of the list, if there is one. */
  lemma PeekShows(files: FQ.Files, r: nat, hi: nat, decode: FQ.Bytes -> Record, stack: FQ.Bytes, n: nat,
                  buffer: FQ.Bytes)
    requires r <= hi && n + 1 < ENOUGH
    requires var s := ShownFrom(files, r, hi, decode, stack);
             n < |Records(s)| && decode(buffer) == Records(s)[n]
    ensures var s := ShownFrom(files, r, hi, decode, stack);
            var p := PeekAfter(files, r, hi, Min(n + 1, |FQ.Ahead(files, r, hi)|), buffer);
            && (p.found <==> n + 1 < |Records(s)|)
            && (p.found ==> decode(p.buffer) == Records(s)[n + 1])
  {
    hide FQ.Ahead, FQ.BlankAt;
  }

  /** The records from the `n`-th on. */
  function From(records: seq<Record>, n: nat): seq<Record> {
    if n <= |records| then records[n..] else []
  }

  lemma NextRecord(all: Listed, taken: seq<Record>, records: seq<Record>, n: nat, left: int, x: Record)
    requires n < |records| && x == records[n] && all == Resumed(taken, From(records, n), left)
    ensures if Below(left, Width(x.entry) + ET_SPACE)
            then all == Listed(taken, From(records, n), left) && all.left != []
            else all == Resumed(taken + [x], From(records, n + 1), Int16(left - Width(x.entry)))
  {
    hide Width, Below, Int16, Resumed;
    ResumedStep(taken, records[n..], left);
    assert records[n..][1..] == records[n + 1..];
  }

  lemma LastRecord(all: Listed, taken: seq<Record>, records: seq<Record>, n: nat, left: int)
    requires n == |records| && all == Resumed(taken, From(records, n), left)
    ensures all == Listed(taken, [], left)
  {
    assert records[n..] == [];
    ResumedEnd(taken, left);
  }

  lemma FirstRecord(records: seq<Record>, left: int)
    ensures Take(records, left) == Resumed([], From(records, 0), left)
  {
    assert records[0..] == records;
    ResumedStart(records, left);
  }

  /** One record is popped and added, and the next one is looked at. */
  method ListOne(ml: Node, reader: FQ.FileQueue, x: Record, buffer: FQ.Bytes, ghost header: seq<Field>,
                 ghost taken: seq<Record>, ghost files: FQ.Files, ghost r: nat, ghost hi: nat, ghost k: nat,
                 ghost ready: bool)
    returns (found: bool, next: FQ.Bytes)
    requires Bounds(files, r, hi) && k <= |FQ.Ahead(files, r, hi)|
    requires reader.mode == FQ.FQ_READ && CursorOf(reader) == CursorAfter(files, r, hi, k, ready)
    requires ml.fields == Building(header, taken)
    modifies ml, reader`curIdx, reader.dir
    ensures ml.fields == Building(header, taken + [x])
    ensures CursorOf(reader) == CursorAfter(files, r, hi, Min(k + 1, |FQ.Ahead(files, r, hi)|), ready)
    ensures Peek(found, next) == PeekAfter(files, r, hi, Min(k + 1, |FQ.Ahead(files, r, hi)|), buffer)
  {
    hide FQ.Ahead, FQ.Popped;
    GetOne(reader, |buffer|, files, r, hi, k);
    EntriesAppend(taken, x);
    ml.AddItem(x.entry, header, "AT", Entries(taken));
    found, next := PeekOne(reader, buffer, files, r, hi, Min(k + 1, |FQ.Ahead(files, r, hi)|));
  }

  lemma InOrder(files: FQ.Files, r: nat, hi: nat)
    requires Bounds(files, r, hi)
    ensures r <= hi
  {
  }

  lemma Prints(decode: FQ.Bytes -> Record, b: FQ.Bytes)
    requires Printable(decode)
    ensures 0 < Width(decode(b).entry) < TEMP_SPACE
  {
  }

  /** What one turn of the loop keeps. */
  lemma TurnKeeps(files: FQ.Files, r: nat, hi: nat, decode: FQ.Bytes -> Record, stack: FQ.Bytes, all: Listed,
                  taken: seq<Record>, left: int, buffer: FQ.Bytes)
    requires Printable(decode) && r <= hi
    requires Fits16(left) && |taken| + Unsigned16(left) < ENOUGH
    requires !Below(left, Width(decode(buffer).entry) + ET_SPACE)
    requires var records := Records(ShownFrom(files, r, hi, decode, stack));
             && |taken| < |records| && decode(buffer) == records[|taken|]
             && all == Resumed(taken, From(records, |taken|), left)
    ensures var records := Records(ShownFrom(files, r, hi, decode, stack));
            var rest := Int16(left - Width(decode(buffer).entry));
            var p := PeekAfter(files, r, hi, Min(|taken| + 1, |FQ.Ahead(files, r, hi)|), buffer);
            && Fits16(rest) && 0 <= Unsigned16(rest) < Unsigned16(left) && |taken| + 1 + Unsigned16(rest) < ENOUGH
            && |taken| + 1 <= |records| && (p.found <==> |taken| + 1 < |records|)
            && (p.found ==> decode(p.buffer) == records[|taken| + 1])
            && all == Resumed(taken + [decode(buffer)], From(records, |taken| + 1), rest)
  {
    hide *;
    var records := Records(ShownFrom(files, r, hi, decode, stack));
    assert 0 < Width(decode(buffer).entry) < TEMP_SPACE by {
      Prints(decode, buffer);
    }
    ChargeDecreases(left, Width(decode(buffer).entry));
    PeekShows(files, r, hi, decode, stack, |taken|, buffer);
    NextRecord(all, taken, records, |taken|, left, decode(buffer));
  }

  /** One turn of the loop for a record that fits. */
  method ListNext(ml: Node, reader: FQ.FileQueue, decode: FQ.Bytes -> Record, buffer: FQ.Bytes, left: int,
                  taken: seq<Record>, ghost all: Listed, ghost header: seq<Field>, ghost files: FQ.Files, ghost r: nat,
                  ghost hi: nat, ghost stack: FQ.Bytes, ghost ready: bool)
    returns (found: bool, next: FQ.Bytes, rest: int, listed: seq<Record>)
    requires Printable(decode) && Bounds(files, r, hi)
    requires reader.mode == FQ.FQ_READ
    requires CursorOf(reader) == CursorAfter(files, r, hi, Min(|taken|, |FQ.Ahead(files, r, hi)|), ready)
    requires ml.fields == Building(header, taken)
    requires Fits16(left) && |taken| + Unsigned16(left) < ENOUGH
    requires !Below(left, Width(decode(buffer).entry) + ET_SPACE)
    requires var records := Records(ShownFrom(files, r, hi, decode, stack));
             && |taken| < |records| && decode(buffer) == records[|taken|]
             && all == Resumed(taken, From(records, |taken|), left)
    modifies ml, reader`curIdx, reader.dir
    ensures |listed| == |taken| + 1 && Fits16(rest) && 0 <= Unsigned16(rest) < Unsigned16(left)
    ensures |listed| + Unsigned16(rest) < ENOUGH
    ensures CursorOf(reader) == CursorAfter(files, r, hi, Min(|listed|, |FQ.Ahead(files, r, hi)|), ready)
    ensures ml.fields == Building(header, listed)
    ensures var records := Records(ShownFrom(files, r, hi, decode, stack));
            && |listed| <= |records| && (found <==> |listed| < |records|)
            && (found ==> decode(next) == records[|listed|])
            && all == Resumed(listed, From(records, |listed|), rest)
  {
    hide *;
    InOrder(files, r, hi);
    var mlInfo := decode(buffer);
    ghost var m := |FQ.Ahead(files, r, hi)|;
    MinNext(|taken|, m);
    TurnKeeps(files, r, hi, decode, stack, all, taken, left, buffer);
    found, next := ListOne(ml, reader, mlInfo, buffer, header, taken, files, r, hi, Min(|taken|, m), ready);
    rest := Int16(left - Width(mlInfo.entry));
    listed := taken + [mlInfo];
  }

  /** The loop of ml_get_json_list; the reader has just peeked successfully, and the buffer holds what
      it found. */
  method ListRecords(ml: Node, reader: FQ.FileQueue, decode: FQ.Bytes -> Record, buffer: FQ.Bytes, remaining: int,
                     ghost header: seq<Field>, ghost files: FQ.Files, ghost r: nat, ghost hi: nat,
                     ghost stack: FQ.Bytes, ghost ready: bool)
    returns (ret: int, left: int, taken: seq<Record>)
    requires Printable(decode) && Fits16(remaining) && Bounds(files, r, hi)
    requires reader.mode == FQ.FQ_READ && CursorOf(reader) == CursorAfter(files, r, hi, 0, ready)
    requires var records := Records(ShownFrom(files, r, hi, decode, stack));
             records != [] && decode(buffer) == records[0]
    requires ml.fields == Building(header, [])
    modifies ml, reader`curIdx, reader.dir
    ensures var all := Take(Records(ShownFrom(files, r, hi, decode, stack)), remaining);
            && taken == all.taken && left == all.remaining && ret == (if all.left == [] then 0 else 1)
    ensures ml.fields == Building(header, taken)
    ensures CursorOf(reader) == CursorAfter(files, r, hi, Min(|taken|, |FQ.Ahead(files, r, hi)|), ready)
  {
    ret, left, taken := 0, remaining, [];
    var buf, found := buffer, true;
    ghost var records, m := Records(ShownFrom(files, r, hi, decode, stack)), |FQ.Ahead(files, r, hi)|;
    ghost var all := Take(records, left);
    FirstRecord(records, left);
    MinNext(0, m);
    assert 0 <= Unsigned16(left) < ENOUGH;
    hide *;
    while found
      invariant ret == 0 && Fits16(left) && 0 <= Unsigned16(left) && |taken| + Unsigned16(left) < ENOUGH
      invariant |taken| <= |records| && (found <==> |taken| < |records|)
      invariant found ==> decode(buf) == records[|taken|]
      invariant all == Resumed(taken, From(records, |taken|), left)
      invariant ml.fields == Building(header, taken)
      invariant CursorOf(reader) == CursorAfter(files, r, hi, Min(|taken|, m), ready)
      decreases Unsigned16(left)
    {
      if Below(left, Width(decode(buf).entry) + ET_SPACE) {
        NextRecord(all, taken, records, |taken|, left, decode(buf));
        ret := 1;
        return;
      }
      found, buf, left, taken := ListNext(ml, reader, decode, buf, left, taken, all, header, files, r, hi, stack, ready);
    }
    LastRecord(all, taken, records, |taken|, left);
  }

  /** How many of the records shown are listed. */
  function CountListed(records: seq<Record>, version: string, remaining: int): (n: nat)
    ensures n <= |records|
  {
    if records == [] || remaining < ML_MINIMUM then 0
    else |Take(records, Int16(remaining - Width(HeaderObject(records[0], version)))).taken|
  }

  lemma EmitsNothing(records: seq<Record>, version: string, remaining: int)
    ensures records == [] ==> Emit(records, version, remaining) == Emitted([], [], remaining, 0)
    ensures records != [] && remaining < ML_MINIMUM ==>
              Emit(records, version, remaining) == Emitted([], records, remaining, 1)
  {
  }

  lemma EmitsTaken(records: seq<Record>, version: string, remaining: int, l: Listed)
    requires records != [] && remaining >= ML_MINIMUM
    requires l == Take(records, Int16(remaining - Width(HeaderObject(records[0], version))))
    ensures Emit(records, version, remaining) ==
              Emitted([Field("ML", MlObject(records[0], version, l.taken))], l.left,
                      if l.taken == [] then l.remaining else Int16(l.remaining - ET_SPACE),
                      if l.left == [] then 0 else 1)
    ensures CountListed(records, version, remaining) == |l.taken|
  {
    hide Take, Width, HeaderObject, MlObject, Int16;
  }

  /** The first peek. */
  lemma FirstPeek(files: FQ.Files, r: nat, hi: nat, decode: FQ.Bytes -> Record, stack: FQ.Bytes)
    requires r <= hi
    ensures var records, p := Records(ShownFrom(files, r, hi, decode, stack)), PeekAfter(files, r, hi, 0, stack);
            && (p.found <==> records != [])
            && (p.found ==> decode(p.buffer) == records[0])
    ensures FQ.Popped(files, r, 0) == files
  {
    hide FQ.Ahead, FQ.BlankAt;
  }

  method StartList(first: Record, version: string, remaining: int) returns (ml: Node, left: int)
    ensures fresh(ml) && ml.fields == Building(Header(first, version), [])
    ensures left == Int16(remaining - Width(HeaderObject(first, version)))
  {
    hide Width, Int16, Header;
    ml := new Node(Header(first, version));
    ml.Add("AT", Array([]));
    left := Int16(remaining - Width(Object(ml.fields)));
  }

  method FinishList(parent: Node, ml: Node, first: Record, version: string, taken: seq<Record>, left: int)
    returns (rest: int)
    requires parent != ml && ml.fields == Building(Header(first, version), taken)
    modifies parent, ml
    ensures parent.fields == old(parent.fields) + [Field("ML", MlObject(first, version, taken))]
    ensures rest == if taken == [] then left else Int16(left - ET_SPACE)
  {
    MlObjectIs(first, version, taken);
    hide MlObject, Header, Entries, Int16;
    rest := left;
    if |taken| > 0 {
      ml.Add("ET", Number(taken[|taken| - 1].end / 1000));
      rest := Int16(left - ET_SPACE);
    }
    parent.Add("ML", Object(ml.fields));
  }

  /** The object is built and added; `records` is what the reader is going to show. */
  method AddList(parent: Node, reader: FQ.FileQueue, decode: FQ.Bytes -> Record, buffer: FQ.Bytes, version: string,
                 remaining: int, ghost files: FQ.Files, ghost r: nat, ghost hi: nat, ghost stack: FQ.Bytes,
                 ghost ready: bool, ghost records: seq<Record>)
    returns (ret: int, left: int)
    requires Printable(decode) && Bounds(files, r, hi)
    requires reader.mode == FQ.FQ_READ && CursorOf(reader) == CursorAfter(files, r, hi, 0, ready)
    requires records == Records(ShownFrom(files, r, hi, decode, stack))
    requires records != [] && decode(buffer) == records[0] && remaining >= ML_MINIMUM
    modifies parent, reader`curIdx, reader.dir
    ensures var e := Emit(records, version, remaining);
            parent.fields == old(parent.fields) + e.added && left == e.remaining && ret == e.ret
    ensures CursorOf(reader) ==
              CursorAfter(files, r, hi, Min(CountListed(records, version, remaining), |FQ.Ahead(files, r, hi)|), ready)
  {
    hide *;
    var first := decode(buffer);
    var ml;
    ml, left := StartList(first, version, remaining);
    IsInt16(remaining - Width(HeaderObject(first, version)));
    EmitsTaken(records, version, remaining, Take(records, left));
    var taken;
    ret, left, taken := ListRecords(ml, reader, decode, buffer, left, Header(first, version), files, r, hi, stack, ready);
    left := FinishList(parent, ml, first, version, taken, left);
  }

  lemma IsInt16(x: int)
    ensures Fits16(Int16(x))
  {
  }

  /** The message part for the activity records: `entries` is the listing of the queue's directory,
      `stack` what the uninitialised buffer holds. */
  method MlGetJsonList(parent: Node, dir: FQ.Directory, entries: seq<FQ.Dirent>, decode: FQ.Bytes -> Record,
                       stack: FQ.Bytes, version: string, remaining: int, ghost hi: nat)
    returns (ret: int, left: int)
    requires FQ.Lists(dir.files, entries) && FQ.LiveBelow(dir.files, hi) && hi <= FQ.INT_MAX
    requires Printable(decode) && Fits16(remaining)
    modifies parent, dir
    ensures FQ.Oldest(old(dir.files), 0, hi) <= hi
    ensures var files, r := old(dir.files), FQ.Oldest(old(dir.files), 0, hi);
            var records := Records(ShownFrom(files, r, hi, decode, stack));
            var e := Emit(records, version, remaining);
            var k := Min(CountListed(records, version, remaining), |FQ.Ahead(files, r, hi)|);
            && ret == e.ret && left == e.remaining && parent.fields == old(parent.fields) + e.added
            && dir.files == FQ.Popped(files, r, k)
            && dir.ready == (old(dir.ready) && k < |FQ.Ahead(files, r, hi)|)
  {
    ghost var files, ready := dir.files, dir.ready;
    var reader := new FQ.FileQueue(dir, FQ.FQ_READ, entries, hi);
    ghost var r := reader.curIdx;
    OldestInOrder(files, hi);
    ghost var records := Records(ShownFrom(files, r, hi, decode, stack));
    FirstPeek(files, r, hi, decode, stack);
    EmitsNothing(records, version, remaining);
    PlusNothing(parent.fields);
    hide Emit, Records, ShownFrom, FQ.Ahead, PeekAfter, FQ.Oldest, Width, Take, HeaderObject;
    var found, buffer := PeekOne(reader, stack, files, r, hi, 0);
    if !found {
      return 0, remaining;
    }
    if remaining < ML_MINIMUM {
      return 1, remaining;
    }
    ret, left := AddList(parent, reader, decode, buffer, version, remaining, files, r, hi, stack, ready, records);
  }

  lemma OldestInOrder(files: FQ.Files, hi: nat)
    ensures FQ.Oldest(files, 0, hi) <= hi
  {
    FQ.OldestIs(files, 0, hi);
  }

  // ----- The budget -----

  lemma TakeUnfold(records: seq<Record>, remaining: int)
    requires 0 <= remaining < 0x8000 && records != []
    ensures var w, l := Width(records[0].entry), Take(records, remaining);
            if remaining < w + ET_SPACE then l == Listed([], records, remaining)
            else
              var rest := Take(records[1..], remaining - w);
              l == Listed([records[0]] + rest.taken, rest.left, rest.remaining)
  {
    hide Width;
  }

  lemma {:induction false} TakeCharges(records: seq<Record>, remaining: int)
    requires 0 <= remaining < 0x8000
    ensures var l := Take(records, remaining);
            && l.remaining == remaining - ItemsWidth(Entries(l.taken)) && 0 <= l.remaining
            && (l.taken != [] ==> l.remaining >= ET_SPACE)
    decreases |records|
  {
    if records != [] {
      hide Width, ItemsWidth, Take;
      TakeUnfold(records, remaining);
      if Width(records[0].entry) + ET_SPACE <= remaining {
        var rest := Take(records[1..], remaining - Width(records[0].entry)).taken;
        TakeCharges(records[1..], remaining - Width(records[0].entry));
        EntriesWidthCons(records[0], rest);
      } else {
        NoEntries();
      }
      hide Entries;
    } else {
      NoEntries();
    }
  }

  lemma NoEntries()
    ensures ItemsWidth(Entries([])) == 0
  {
  }

  lemma EntriesWidthCons(r: Record, rest: seq<Record>)
    ensures ItemsWidth(Entries([r] + rest)) == Width(r.entry) + ItemsWidth(Entries(rest))
  {
    hide Width;
    assert ([r] + rest)[1..] == rest;
    EntriesTail([r] + rest);
  }

  /** With room for at least the closing field the records taken are the longest prefix that fits
      beside it. */
  lemma {:induction false} TakeIsLongest(records: seq<Record>, remaining: int)
    requires 0 <= remaining < 0x8000
    ensures |Take(records, remaining).taken| ==
              if remaining < ET_SPACE then 0 else Fit(Entries(records), remaining - ET_SPACE)
    decreases |records|
  {
    if records != [] {
      hide Width, Take, Fit;
      var w := Width(records[0].entry);
      TakeUnfold(records, remaining);
      EntriesTail(records);
      if remaining >= ET_SPACE {
        FitUnfold(Entries(records), remaining - ET_SPACE);
      }
      if w + ET_SPACE <= remaining {
        TakeIsLongest(records[1..], remaining - w);
      }
      hide Entries;
    }
  }

  lemma EntriesTail(records: seq<Record>)
    requires records != []
    ensures Entries(records)[0] == records[0].entry && Entries(records)[1..] == Entries(records[1..])
  {
  }

  /** What the object is charged: its header, its records and, with records, the closing field. */
  function Charge(first: Record, version: string, taken: seq<Record>): nat {
    Width(HeaderObject(first, version)) + ItemsWidth(Entries(taken)) + if taken == [] then 0 else ET_SPACE
  }

  /** The budget is kept exactly when the header fits into it: the header is charged without being
      compared, and a negative rest passes every later comparison. */
  lemma {:induction false} BudgetKept(records: seq<Record>, version: string, remaining: int)
    requires records != [] && ML_MINIMUM <= remaining < 0x8000
    requires Width(HeaderObject(records[0], version)) < 0x8000
    ensures var header := Width(HeaderObject(records[0], version));
            var l := Take(records, Int16(remaining - header));
            && (Charge(records[0], version, l.taken) <= remaining <==> header <= remaining)
            && (header <= remaining ==>
                  && Emit(records, version, remaining).remaining == remaining - Charge(records[0], version, l.taken)
                  && |l.taken| == if remaining - header < ET_SPACE then 0
                                  else Fit(Entries(records), remaining - header - ET_SPACE))
  {
    var header := Width(HeaderObject(records[0], version));
    hide HeaderObject;
    if header <= remaining {
      assert Int16(remaining - header) == remaining - header;
      TakeCharges(records, remaining - header);
      TakeIsLongest(records, remaining - header);
      hide Width, Take, Entries, Fit, ItemsWidth;
    }
  }

  // ----- What is printed -----

  /** The comma, name and value of the closing field. */
  function Closing(taken: seq<Record>): nat {
    if taken == [] then 0 else 6 + NumberWidth(taken[|taken| - 1].end / 1000)
  }

  lemma {:induction false} MlObjectWidth(first: Record, version: string, taken: seq<Record>)
    ensures Width(MlObject(first, version, taken)) ==
              Width(HeaderObject(first, version)) + ItemsWidth(Entries(taken)) + Commas(|taken|) + Closing(taken)
  {
    var header := Header(first, version);
    var listed := header + [Field("AT", Array(Entries(taken)))];
    assert ItemsWidth([]) == 0;
    assert Width(Array([])) == 2;
    assert Width(Array(Entries(taken))) == 2 + ItemsWidth(Entries(taken)) + Commas(|taken|);
    ObjectWidth(header, "AT", Array([]));
    ObjectWidth(header, "AT", Array(Entries(taken)));
    MlObjectIs(first, version, taken);
    if taken != [] {
      var et := Field("ET", Number(taken[|taken| - 1].end / 1000));
      assert FieldWidth(et) == 5 + NumberWidth(taken[|taken| - 1].end / 1000);
      ObjectGrows(listed, et);
    }
    hide Width, Header, Entries, ItemsWidth, NumberWidth, FieldsWidth, FieldWidth, MlObject;
  }

  /** What the printed list exceeds its charge by: its name, the commas between the records and the
      difference between the closing field and the bytes set aside for it. */
  function Excess(taken: seq<Record>): int {
    6 + Commas(|taken|) + Closing(taken) - if taken == [] then 0 else ET_SPACE
  }

  /** Adding the list makes the message longer by no more than its budget and the padding exactly
      when that excess is at most the padding and the unused rest of the budget.  The records are
      the longest prefix that fits behind the header and before the closing field. */
  lemma {:induction false} ListGrowsWithinBudget(records: seq<Record>, version: string, remaining: int)
    requires records != [] && ML_MINIMUM <= remaining < 0x8000
    requires Width(HeaderObject(records[0], version)) <= remaining
    ensures var room := remaining - Width(HeaderObject(records[0], version)) - ET_SPACE;
            var taken := records[..if room < 0 then 0 else Longest(Entries(records), room)];
            && Charge(records[0], version, taken) <= remaining
            && (Span(Emit(records, version, remaining).added) <= remaining + PADDING <==>
               Excess(taken) <= PADDING + (remaining - Charge(records[0], version, taken)))
  {
    var first, header := records[0], Width(HeaderObject(records[0], version));
    var room := remaining - header - ET_SPACE;
    assert Int16(remaining - header) == remaining - header;
    var l := Take(records, remaining - header);
    TakePartitions(records, remaining - header);
    BudgetKept(records, version, remaining);
    if room >= 0 {
      FitIsLongestPrefix(Entries(records), room);
    }
    hide Take, HeaderObject, Entries, Width, ItemsWidth, Longest, Fit, Int16;
    assert l.taken == records[..|l.taken|];
    SpanOne("ML", MlObject(first, version, l.taken));
    MlObjectWidth(first, version, l.taken);
    hide MlObject, Closing;
  }

  /** With end times of at most ten digits nine records never exceed it. */
  lemma {:induction false} NineRecordsFit(records: seq<Record>, version: string, remaining: int)
    requires 0 < |records| <= 9 && ML_MINIMUM <= remaining < 0x8000
    requires Width(HeaderObject(records[0], version)) <= remaining
    requires forall k :: 0 <= k < |records| ==> NumberWidth(records[k].end / 1000) <= 10
    ensures Span(Emit(records, version, remaining).added) <= remaining + PADDING
  {
    var room := remaining - Width(HeaderObject(records[0], version)) - ET_SPACE;
    var taken := records[..if room < 0 then 0 else Longest(Entries(records), room)];
    ListGrowsWithinBudget(records, version, remaining);
    hide HeaderObject, Entries, Charge, Longest, Emit, NumberWidth, Span, Width;
  }

  /** Ten records of equal width that just fit overrun budget and padding by a byte: the name and the
      nine commas are charged to nobody. */
  lemma {:induction false} TenRecordsOverrun(r: Record, version: string)
    requires NumberWidth(r.end / 1000) == 10
    requires 18 <= Width(r.entry) && Width(HeaderObject(r, version)) + 10 * Width(r.entry) + ET_SPACE < 0x8000
    ensures var remaining := Width(HeaderObject(r, version)) + 10 * Width(r.entry) + ET_SPACE;
            var e := Emit(Copies(r, 10), version, remaining);
            e.left == [] && Span(e.added) == remaining + PADDING + 1
  {
    var w, header, records := Width(r.entry), Width(HeaderObject(r, version)), Copies(r, 10);
    var remaining := header + 10 * w + ET_SPACE;
    hide Width, HeaderObject, Emit, Span, NumberWidth, MlObject;
    CopiesWidth(r, 10);
    TakesAll(records, 10 * w + ET_SPACE);
    assert Int16(remaining - header) == 10 * w + ET_SPACE;
    EmitsTaken(records, version, remaining, Listed(records, [], ET_SPACE));
    SpanOne("ML", MlObject(r, version, records));
    MlObjectWidth(r, version, records);
  }

  lemma {:induction false} CopiesWidth(r: Record, n: nat)
    ensures ItemsWidth(Entries(Copies(r, n))) == n * Width(r.entry)
  {
    hide Width;
    if n > 0 {
      CopiesWidth(r, n - 1);
      assert Copies(r, n) == [r] + Copies(r, n - 1);
      EntriesWidthCons(r, Copies(r, n - 1));
    } else {
      NoEntries();
      assert Copies(r, 0) == [];
    }
  }

  /** Records that fit together are all taken. */
  lemma {:induction false} TakesAll(records: seq<Record>, remaining: int)
    requires 0 <= remaining < 0x8000 && ItemsWidth(Entries(records)) + ET_SPACE <= remaining
    ensures Take(records, remaining) == Listed(records, [], remaining - ItemsWidth(Entries(records)))
    decreases |records|
  {
    hide Width, ItemsWidth, Entries, Take;
    if records != [] {
      assert records == [records[0]] + records[1..];
      EntriesWidthCons(records[0], records[1..]);
      TakeUnfold(records, remaining);
      TakesAll(records[1..], remaining - Width(records[0].entry));
    } else {
      NoEntries();
      TakesNone(remaining);
    }
  }

  lemma TakesNone(remaining: int)
    ensures Take([], remaining) == Listed([], [], remaining)
  {
  }

  // ----- Each record once -----

  /** What a freshly initialised reader of the queue shows. */
  function ShownOf(s: FQ.Queue, decode: FQ.Bytes -> Record, stack: FQ.Bytes): Shown
    requires s.r <= s.w
  {
    ShownFrom(s.files, s.r, s.w, decode, stack)
  }

  /** The last record fits once more when all records ahead have been listed and the reader is at an
      empty file. */
  predicate Repeats(s: Shown, remaining: int) {
    var l := Take(s.ahead, remaining);
    s.blank && l.left == [] && !Below(l.remaining, Width(s.last.entry) + ET_SPACE)
  }

  lemma {:induction false} TakeConcat(a: seq<Record>, b: seq<Record>, remaining: int)
    ensures var l, m := Take(a, remaining), Take(b, Take(a, remaining).remaining);
            Take(a + b, remaining) ==
              if l.left == [] then Listed(l.taken + m.taken, m.left, m.remaining)
              else Listed(l.taken, l.left + b, l.remaining)
    decreases |a|
  {
    hide Width, Below, Int16;
    if a == [] {
      assert a + b == b;
      assert [] + Take(b, remaining).taken == Take(b, remaining).taken;
    } else {
      assert (a + b)[0] == a[0] && (a + b)[1..] == a[1..] + b;
      var rest := Int16(remaining - Width(a[0].entry));
      TakeConcat(a[1..], b, rest);
      var l := Take(a[1..], rest);
      assert ([a[0]] + l.taken) + Take(b, l.remaining).taken == [a[0]] + (l.taken + Take(b, l.remaining).taken);
    }
  }

  /** More records are listed than there are ahead exactly when the last one fits again. */
  lemma RepeatsListsMore(s: Shown, remaining: int)
    ensures |Take(Records(s), remaining).taken| > |s.ahead| <==> Repeats(s, remaining)
  {
    var b := if s.blank then Copies(s.last, ENOUGH) else [];
    TakeConcat(s.ahead, b, remaining);
    TakePartitions(s.ahead, remaining);
    TakeHead(b, Take(s.ahead, remaining).remaining);
    hide Take, Width, Below;
  }

  lemma TakeHead(b: seq<Record>, remaining: int)
    ensures Take(b, remaining).taken != [] <==> b != [] && !Below(remaining, Width(b[0].entry) + ET_SPACE)
  {
    hide Width, Below;
  }

  /** The queue once the list has been emitted: `n` records listed, as many gets as there were items. */
  function AfterListing(s: FQ.Queue, n: nat): FQ.Queue {
    FQ.Run(s, FQ.Gets(Min(n, |FQ.AheadOf(s)|)))
  }

  /** What remains of the budget for the records. */
  function RoomFor(records: seq<Record>, version: string, remaining: int): int
    requires records != []
  {
    Int16(remaining - Width(HeaderObject(records[0], version)))
  }

  /** The records listed, followed by those still in the queue, are those that were in it, if and only
      if the listing does not come to an empty file with room for the last record once more: there
      it lists that record again, and again while it fits. */
  lemma EachRecordOnceIff(q: FQ.Queue, decode: FQ.Bytes -> Record, stack: FQ.Bytes, version: string, remaining: int)
    requires FQ.Inv(q) && remaining >= ML_MINIMUM
    ensures var t := FQ.Apply(q, FQ.ReopenReader);
            && FQ.Inv(t) && t.r <= t.w
            && var records := Records(ShownOf(t, decode, stack));
               records != [] ==>
                 var taken := Take(records, RoomFor(records, version, remaining)).taken;
                 && FQ.Inv(AfterListing(t, |taken|))
                 && AfterListing(t, |taken|).files == FQ.Popped(t.files, t.r, Min(|taken|, |FQ.AheadOf(t)|))
                 && (taken + Decoded(FQ.Unread(AfterListing(t, |taken|)), decode) == Decoded(FQ.Unread(q), decode) <==>
                       !Repeats(ShownOf(t, decode, stack), RoomFor(records, version, remaining)))
  {
    hide *;
    FQ.ReopenKeeps(q);
    var t := FQ.Apply(q, FQ.ReopenReader);
    ReaderInOrder(t);
    var s := ShownOf(t, decode, stack);
    var records := Records(s);
    if records != [] {
      var room := RoomFor(records, version, remaining);
      var taken := Take(records, room).taken;
      RepeatsListsMore(s, room);
      TakePartitions(records, room);
      ListedPart(t, decode, stack, taken, Take(records, room).left);
    }
  }

  lemma ReaderInOrder(s: FQ.Queue)
    requires FQ.Inv(s)
    ensures s.r <= s.w
  {
  }

  lemma ListedPart(t: FQ.Queue, decode: FQ.Bytes -> Record, stack: FQ.Bytes, taken: seq<Record>, left: seq<Record>)
    requires FQ.Inv(t) && t.r <= t.w && taken + left == Records(ShownOf(t, decode, stack))
    ensures var after := AfterListing(t, |taken|);
            && FQ.Inv(after) && after.files == FQ.Popped(t.files, t.r, Min(|taken|, |FQ.AheadOf(t)|))
            && (taken + Decoded(FQ.Unread(after), decode) == Decoded(FQ.Unread(t), decode) <==>
                  |taken| <= |ShownOf(t, decode, stack).ahead|)
  {
    hide *;
    var items := FQ.AheadOf(t);
    var k := Min(|taken|, |items|);
    MinNext(|taken|, |items|);
    FQ.GetsPop(t, k);
    FQ.GetsEnabled(t, k);
    FQ.RunConserves(t, FQ.Gets(k));
    var after := AfterListing(t, |taken|);
    assert after == FQ.Run(t, FQ.Gets(k)) by {
      AfterListingIs(t, |taken|);
    }
    var u := FQ.Unread(after);
    PartsDecode(items, decode, stack, t, taken, left, u);
  }

  lemma AfterListingIs(s: FQ.Queue, n: nat)
    ensures AfterListing(s, n) == FQ.Run(s, FQ.Gets(Min(n, |FQ.AheadOf(s)|)))
  {
    hide FQ.Run, FQ.Gets, FQ.AheadOf, Min;
  }

  lemma PartsDecode(items: seq<FQ.Bytes>, decode: FQ.Bytes -> Record, stack: FQ.Bytes, t: FQ.Queue,
                    taken: seq<Record>, left: seq<Record>, u: seq<FQ.Bytes>)
    requires t.r <= t.w && items == FQ.AheadOf(t) && taken + left == Records(ShownOf(t, decode, stack))
    requires FQ.Unread(t) == items[..Min(|taken|, |items|)] + u
    ensures taken + Decoded(u, decode) == Decoded(FQ.Unread(t), decode) <==>
              |taken| <= |ShownOf(t, decode, stack).ahead|
  {
    hide FQ.Ahead, FQ.Unread, FQ.BlankAt;
    var k := Min(|taken|, |items|);
    assert |ShownOf(t, decode, stack).ahead| == |items|;
    if |taken| <= |items| {
      assert taken == (taken + left)[..k];
      assert taken == Decoded(items[..k], decode);
      assert Decoded(items[..k] + u, decode) == Decoded(items[..k], decode) + Decoded(u, decode);
    } else {
      assert |taken + Decoded(u, decode)| > |Decoded(FQ.Unread(t), decode)|;
    }
  }

  /** When the header fits into the budget, that is so exactly when the last record and all those
      ahead make up a prefix that fits beside the closing field. */
  lemma RepeatsMeans(s: Shown, room: int)
    requires 0 <= room < 0x8000
    ensures Repeats(s, room) <==>
              s.blank && room >= ET_SPACE
              && Longest(Entries(s.ahead + [s.last]), room - ET_SPACE) == |s.ahead| + 1
  {
    TakeConcat(s.ahead, [s.last], room);
    TakePartitions(s.ahead, room);
    TakeHead([s.last], Take(s.ahead, room).remaining);
    TakeIsLongest(s.ahead + [s.last], room);
    if room >= ET_SPACE {
      FitIsLongestPrefix(Entries(s.ahead + [s.last]), room - ET_SPACE);
    }
    TakePartitions([s.last], Take(s.ahead, room).remaining);
    hide Take, Width, Below, Entries, Fit, Longest;
  }

  /** In a queue in which every put has completed, or at least none is in flight at the slot where
      the reader stops, the records shown are exactly the unread ones, each once. */
  lemma CleanQueueShowsUnread(q: FQ.Queue, decode: FQ.Bytes -> Record, stack: FQ.Bytes)
    requires FQ.Clean(q)
    ensures var t := FQ.Apply(q, FQ.ReopenReader);
            && t.r <= t.w
            && (q.pending.None? || FQ.StopSlot(t) != q.w - 1 ==>
                  Records(ShownOf(t, decode, stack)) == Decoded(FQ.Unread(q), decode))
  {
    var t := FQ.Apply(q, FQ.ReopenReader);
    FQ.ReopenedIsOnOldest(q);
    FQ.CleanAhead(t);
    FQ.BlankStopOnlyInFlight(t);
    hide FQ.Clean, FQ.Unread, FQ.Ahead, FQ.NothingBehind, FQ.BlankAt;
    assert ShownOf(t, decode, stack).ahead + [] == ShownOf(t, decode, stack).ahead;
  }

  /** One item and then a put whose write fails. */
  function FailedPut(a: FQ.Bytes, b: FQ.Bytes): seq<FQ.Op> {
    [FQ.CreateFile(a), FQ.WriteFile, FQ.CreateFile(b), FQ.FailWrite]
  }

  lemma FailedPutFiles(a: FQ.Bytes, b: FQ.Bytes)
    ensures FQ.AllEnabled(FQ.EMPTY, FailedPut(a, b))
    ensures var q := FQ.Run(FQ.EMPTY, FailedPut(a, b));
            q == FQ.Queue(map[FQ.Name(0) := a, FQ.Name(1) := []], 2, 0, true, None)
    ensures FQ.Name(0) != FQ.Name(1)
  {
    if FQ.Name(0) == FQ.Name(1) {
      FQ.NameInjective(0, 1);
    }
    hide FQ.Name;
    var s1 := FQ.Apply(FQ.EMPTY, FQ.CreateFile(a));
    var s2 := FQ.Apply(s1, FQ.WriteFile);
    var s3 := FQ.Apply(s2, FQ.CreateFile(b));
    assert FQ.Overwrite([], a) == a;
    assert s1 == FQ.Queue(map[FQ.Name(0) := []], 1, 0, false, Some(a));
    assert s2 == FQ.Queue(map[FQ.Name(0) := a], 1, 0, true, None);
    assert s3 == FQ.Queue(map[FQ.Name(0) := a, FQ.Name(1) := []], 2, 0, true, Some(b));
    var s4 := FQ.Apply(s3, FQ.FailWrite);
    hide FQ.Apply;
    OneStep(s3, FQ.FailWrite, []);
    OneStep(s2, FQ.CreateFile(b), [FQ.FailWrite]);
    OneStep(s1, FQ.WriteFile, [FQ.CreateFile(b), FQ.FailWrite]);
    OneStep(FQ.EMPTY, FQ.CreateFile(a), [FQ.WriteFile, FQ.CreateFile(b), FQ.FailWrite]);
  }

  lemma OneStep(s: FQ.Queue, op: FQ.Op, ops: seq<FQ.Op>)
    ensures FQ.Run(s, [op] + ops) == FQ.Run(FQ.Apply(s, op), ops)
    ensures FQ.AllEnabled(s, [op] + ops) <==> FQ.Enabled(s, op) && FQ.AllEnabled(FQ.Apply(s, op), ops)
  {
    hide FQ.Apply, FQ.Enabled;
    assert ([op] + ops)[1..] == ops;
  }

  lemma FailedPutShows(a: FQ.Bytes, decode: FQ.Bytes -> Record, stack: FQ.Bytes)
    requires a != [] && FQ.Name(0) != FQ.Name(1)
    ensures var files: FQ.Files := map[FQ.Name(0) := a, FQ.Name(1) := []];
            && FQ.Items(files, 0, 2) == [a] && FQ.Oldest(files, 0, 2) == 0
            && ShownFrom(files, 0, 2, decode, stack) == Shown([decode(a)], true, decode(a))
  {
    var files: FQ.Files := map[FQ.Name(0) := a, FQ.Name(1) := []];
    hide FQ.Name;
    assert FQ.Live(files, 0) && !FQ.Live(files, 1) && FQ.BlankAt(files, 1);
    hide FQ.Live, FQ.BlankAt;
    assert FQ.Ahead(files, 1, 2) == [] && FQ.Ahead(files, 0, 2) == [a];
    assert FQ.Items(files, 2, 2) == [] && FQ.Items(files, 1, 2) == [];
    assert Decoded([a], decode) == [decode(a)];
  }

  /** There the one record is listed twice, and more often if the budget allows. */
  lemma RepeatedRecord(a: FQ.Bytes, b: FQ.Bytes, decode: FQ.Bytes -> Record, stack: FQ.Bytes, version: string,
                       remaining: int)
    requires a != []
    requires Width(HeaderObject(decode(a), version)) + 2 * Width(decode(a).entry) + ET_SPACE <= remaining < 0x8000
    ensures var q := FQ.Run(FQ.EMPTY, FailedPut(a, b));
            var t := FQ.Apply(q, FQ.ReopenReader);
            && t.r <= t.w && FQ.Unread(q) == [a]
            && var records := Records(ShownOf(t, decode, stack));
               records != []
               && [decode(a), decode(a)] <= Take(records, RoomFor(records, version, remaining)).taken
  {
    FailedPutFiles(a, b);
    FailedPutShows(a, decode, stack);
    var s := Shown([decode(a)], true, decode(a));
    TwoAhead(s);
    TwoTaken(s, remaining - Width(HeaderObject(decode(a), version)));
    hide FQ.Run, FQ.Name, FQ.Items, FQ.Oldest, ShownFrom, Take, Width, HeaderObject, Records;
  }

  lemma TwoTaken(s: Shown, room: int)
    requires |s.ahead| == 1 && s.blank && s.last == s.ahead[0]
    requires 2 * Width(s.last.entry) + ET_SPACE <= room < 0x8000
    ensures [s.last, s.last] <= Take(Records(s), Int16(room)).taken
  {
    var x, more := s.last, Copies(s.last, ENOUGH - 1);
    TwoAhead(s);
    IsInt16Within(room);
    hide *;
    TakeHeadThen(x, [x] + more, room);
    TakeHeadThen(x, more, room - Width(x.entry));
    TwoThen(x, Take(more, room - 2 * Width(x.entry)).taken);
  }

  lemma TwoAhead(s: Shown)
    requires |s.ahead| == 1 && s.blank && s.last == s.ahead[0]
    ensures Records(s) == [s.last] + ([s.last] + Copies(s.last, ENOUGH - 1))
  {
  }

  lemma IsInt16Within(x: int)
    requires Fits16(x)
    ensures Int16(x) == x
  {
  }

  lemma TakeHeadThen(x: Record, more: seq<Record>, room: int)
    requires Width(x.entry) + ET_SPACE <= room < 0x8000
    ensures Take([x] + more, room).taken == [x] + Take(more, room - Width(x.entry)).taken
  {
    hide Take, Width;
    assert ([x] + more)[1..] == more;
    TakeUnfold([x] + more, room);
  }

  lemma TwoThen(x: Record, more: seq<Record>)
    ensures [x, x] <= [x] + ([x] + more)
  {
  }

  // ----- What the list says -----

  /** Read by its field names: the start of the first of the records, the version, the entries of the
      first `n` records and the end of the last of these; and no other fields. */
  ghost predicate ListSays(list: Json, version: string, unread: seq<FQ.Bytes>, decode: FQ.Bytes -> Record, n: nat)
    requires unread != [] && n <= |unread|
  {
    var ml := Some(list);
    && list.Object? && |list.fields| == (if n == 0 then 5 else 6)
    && Under(ml, "ST") == Some(Number(decode(unread[0]).start / 1000))
    && Under(ml, "MV") == Some(Str(version)) && Under(ml, "AV") == Some(Str(version))
    && Under(ml, "RV") == Some(Str(version))
    && Under(ml, "AT").Some? && Under(ml, "AT").value.Array? && |Under(ml, "AT").value.items| == n
    && (forall k :: 0 <= k < n ==> Under(ml, "AT").value.items[k] == decode(unread[k]).entry)
    && Under(ml, "ET") == (if n == 0 then None else Some(Number(decode(unread[n - 1]).end / 1000)))
  }

  lemma {:induction false} EntriesAt(records: seq<Record>)
    ensures forall k :: 0 <= k < |records| ==> Entries(records)[k] == records[k].entry
    decreases |records|
  {
    if records != [] {
      EntriesAt(records[1..]);
    }
  }

  /** The names are told apart by their first or second letter. */
  lemma NamesDiffer()
    ensures "ST" != "MV" && "ST" != "AV" && "ST" != "RV" && "ST" != "AT" && "ST" != "ET"
    ensures "MV" != "AV" && "MV" != "RV" && "MV" != "AT" && "MV" != "ET"
    ensures "AV" != "RV" && "AV" != "AT" && "AV" != "ET" && "RV" != "AT" && "RV" != "ET" && "AT" != "ET"
  {
    assert "ST"[0] == 'S' && "MV"[0] == 'M' && "AV"[0] == 'A' && "RV"[0] == 'R' && "AT"[0] == 'A' && "ET"[0] == 'E';
    assert "AV"[1] == 'V' && "AT"[1] == 'T';
  }

  lemma HeaderLookUps(r: Record, version: string, entries: seq<Json>, closing: seq<Field>)
    ensures var f := Header(r, version) + [Field("AT", Array(entries))] + closing;
            && LookUp(f, "ST") == Some(Number(r.start / 1000)) && LookUp(f, "MV") == Some(Str(version))
            && LookUp(f, "AV") == Some(Str(version)) && LookUp(f, "RV") == Some(Str(version))
            && LookUp(f, "AT") == Some(Array(entries)) && LookUp(f, "ET") == LookUp(closing, "ET")
            && |f| == 5 + |closing|
  {
    var f := Header(r, version) + [Field("AT", Array(entries))];
    NamesDiffer();
    LookUpAt(f, "ST", 0);
    LookUpAt(f, "MV", 1);
    LookUpAt(f, "AV", 2);
    LookUpAt(f, "RV", 3);
    LookUpAt(f, "AT", 4);
    NotThere(f, "ET");
    LookUpConcat(f, closing, "ST");
    LookUpConcat(f, closing, "MV");
    LookUpConcat(f, closing, "AV");
    LookUpConcat(f, closing, "RV");
    LookUpConcat(f, closing, "AT");
    LookUpConcat(f, closing, "ET");
    hide LookUp;
  }

  lemma ObjectSays(first: Record, version: string, taken: seq<Record>)
    ensures var list := MlObject(first, version, taken);
            var ml := Some(list);
            && list.Object? && |list.fields| == (if taken == [] then 5 else 6)
            && Under(ml, "ST") == Some(Number(first.start / 1000))
            && Under(ml, "MV") == Some(Str(version)) && Under(ml, "AV") == Some(Str(version))
            && Under(ml, "RV") == Some(Str(version)) && Under(ml, "AT") == Some(Array(Entries(taken)))
            && Under(ml, "ET") == if taken == [] then None else Some(Number(taken[|taken| - 1].end / 1000))
  {
    var closing := if taken == [] then [] else [Field("ET", Number(taken[|taken| - 1].end / 1000))];
    HeaderLookUps(first, version, Entries(taken), closing);
    LookUpOne(Field("ET", Number(if taken == [] then 0 else taken[|taken| - 1].end / 1000)), "ET");
    hide LookUp, Header, Entries;
  }

  /** What the object is charged before there are records in it. */
  lemma HeaderWidthIs(r: Record, version: string)
    ensures Width(HeaderObject(r, version)) == 39 + NumberWidth(r.start / 1000) + 3 * |version|
  {
    var f := Header(r, version);
    SpanOne("ST", Number(r.start / 1000));
    SpanOne("MV", Str(version));
    SpanOne("AV", Str(version));
    SpanOne("RV", Str(version));
    SpanOne("AT", Array([]));
    assert Width(Array([])) == 2;
    hide Span, NumberWidth;
    var at := Field("AT", Array([]));
    assert f + [at] == [f[0]] + ([f[1]] + ([f[2]] + ([f[3]] + [at])));
    SpanConcat([f[3]], [at]);
    SpanConcat([f[2]], [f[3]] + [at]);
    SpanConcat([f[1]], [f[2]] + ([f[3]] + [at]));
    SpanConcat([f[0]], [f[1]] + ([f[2]] + ([f[3]] + [at])));
    assert Width(Object(f + [at])) == 1 + Span(f + [at]);
  }

  /** A list of the first `n` records. */
  lemma ListOfFirst(unread: seq<FQ.Bytes>, decode: FQ.Bytes -> Record, version: string, n: nat)
    requires unread != [] && n <= |unread|
    ensures var records := Decoded(unread, decode);
            ListSays(MlObject(records[0], version, records[..n]), version, unread, decode, n)
  {
    var records := Decoded(unread, decode);
    ObjectSays(records[0], version, records[..n]);
    EntriesAt(records[..n]);
    hide MlObject, LookUp, Entries;
  }

  lemma ShownAt(q: FQ.Queue, decode: FQ.Bytes -> Record, stack: FQ.Bytes)
    requires FQ.Clean(q)
    ensures FQ.Oldest(q.files, 0, q.w) <= q.w
    ensures var t := FQ.Apply(q, FQ.ReopenReader);
            t.r <= t.w && ShownOf(t, decode, stack) == ShownFrom(q.files, FQ.Oldest(q.files, 0, q.w), q.w, decode, stack)
  {
    CleanQueueShowsUnread(q, decode, stack);
    hide FQ.Clean, FQ.Oldest, FQ.Unread, FQ.StopSlot, Records, ShownFrom;
  }

  /** The list of the first `n` unread records, as many as fit beside the header and the closing field. */
  ghost predicate ListAdded(e: Emitted, n: nat, unread: seq<FQ.Bytes>, decode: FQ.Bytes -> Record, version: string,
                            room: int)
    requires unread != []
  {
    && n == (if room < 20 then 0 else Longest(Entries(Decoded(unread, decode)), room - 20))
    && n <= |unread| && |e.added| == 1 && e.added[0].name == "ML"
    && ListSays(e.added[0].value, version, unread, decode, n)
    && e.ret == (if n == |unread| then 0 else 1)
    && e.remaining == room - ItemsWidth(Entries(Decoded(unread[..n], decode))) - (if n == 0 then 0 else 20)
  }

  /** What the method adds to the message when the reading does not come to a put in flight: nothing
      without unread records or with less than 200 bytes left; otherwise, as long as its header fits,
      the list. */
  lemma CleanListSays(q: FQ.Queue, decode: FQ.Bytes -> Record, stack: FQ.Bytes, version: string, remaining: int)
    requires FQ.Clean(q) && Fits16(remaining)
    requires q.pending.None? || FQ.StopSlot(FQ.Apply(q, FQ.ReopenReader)) != q.w - 1
    ensures FQ.Oldest(q.files, 0, q.w) <= q.w
    ensures var unread := FQ.Unread(q);
            var records := Records(ShownFrom(q.files, FQ.Oldest(q.files, 0, q.w), q.w, decode, stack));
            var e := Emit(records, version, remaining);
            var n := CountListed(records, version, remaining);
            if unread == [] then e.added == [] && e.remaining == remaining && e.ret == 0 && n == 0
            else if remaining < 200 then e.added == [] && e.remaining == remaining && e.ret == 1 && n == 0
            else
              var room := remaining - (39 + NumberWidth(decode(unread[0]).start / 1000) + 3 * |version|);
              room >= 0 ==> ListAdded(e, n, unread, decode, version, room)
  {
    hide *;
    ShownAt(q, decode, stack);
    CleanQueueShowsUnread(q, decode, stack);
    var unread := FQ.Unread(q);
    ListsNothing(Decoded(unread, decode), version, remaining);
    if unread != [] && remaining >= 200 {
      var room := remaining - (39 + NumberWidth(decode(unread[0]).start / 1000) + 3 * |version|);
      if room >= 0 {
        AddsUnread(unread, decode, version, remaining, room);
      }
    }
  }

  lemma ListsNothing(records: seq<Record>, version: string, remaining: int)
    ensures var e, n := Emit(records, version, remaining), CountListed(records, version, remaining);
            && (records == [] ==> e.added == [] && e.remaining == remaining && e.ret == 0 && n == 0)
            && (records != [] && remaining < 200 ==> e.added == [] && e.remaining == remaining && e.ret == 1 && n == 0)
  {
    hide Take, Width, HeaderObject, Int16;
  }

  lemma {:induction false} AddsUnread(unread: seq<FQ.Bytes>, decode: FQ.Bytes -> Record, version: string, remaining: int,
                                      room: int)
    requires unread != [] && remaining >= 200 && Fits16(remaining)
    requires 0 <= room == remaining - (39 + NumberWidth(decode(unread[0]).start / 1000) + 3 * |version|)
    ensures var records := Decoded(unread, decode);
            ListAdded(Emit(records, version, remaining), CountListed(records, version, remaining), unread, decode,
                      version, room)
  {
    hide *;
    var records := Decoded(unread, decode);
    var l := Take(records, room);
    HeaderWidthIs(records[0], version);
    TakePartitions(records, room);
    FirstTaken(unread, decode, l.taken, l.left);
    WithinBudget(records, version, remaining, room);
    ListOfFirst(unread, decode, version, |l.taken|);
    AddedIs(Emit(records, version, remaining), |l.taken|, unread, decode, version, room);
  }

  lemma FirstTaken(unread: seq<FQ.Bytes>, decode: FQ.Bytes -> Record, taken: seq<Record>, left: seq<Record>)
    requires taken + left == Decoded(unread, decode)
    ensures |taken| <= |unread| && Decoded(unread, decode)[..|taken|] == taken
    ensures Decoded(unread[..|taken|], decode) == taken && (left == [] <==> |taken| == |unread|)
  {
  }

  lemma {:induction false} WithinBudget(records: seq<Record>, version: string, remaining: int, room: int)
    requires records != [] && remaining >= 200 && Fits16(remaining)
    requires 0 <= room == remaining - Width(HeaderObject(records[0], version))
    ensures var e, l := Emit(records, version, remaining), Take(records, room);
            && e.added == [Field("ML", MlObject(records[0], version, l.taken))]
            && e.ret == (if l.left == [] then 0 else 1)
            && CountListed(records, version, remaining) == |l.taken|
            && |l.taken| == (if room < 20 then 0 else Longest(Entries(records), room - 20))
            && e.remaining == room - ItemsWidth(Entries(l.taken)) - (if l.taken == [] then 0 else 20)
  {
    IsInt16Within(room);
    EmitsTaken(records, version, remaining, Take(records, room));
    BudgetKept(records, version, remaining);
    if room >= 20 {
      FitIsLongestPrefix(Entries(records), room - 20);
    }
    hide Emit, Take, Width, HeaderObject, Entries, Longest, Fit, ItemsWidth, MlObject, CountListed, Int16;
  }

  lemma AddedIs(e: Emitted, n: nat, unread: seq<FQ.Bytes>, decode: FQ.Bytes -> Record, version: string, room: int)
    requires unread != [] && n <= |unread|
    requires n == if room < 20 then 0 else Longest(Entries(Decoded(unread, decode)), room - 20)
    requires |e.added| == 1 && e.added[0].name == "ML"
    requires ListSays(e.added[0].value, version, unread, decode, n)
    requires e.ret == if n == |unread| then 0 else 1
    requires e.remaining == room - ItemsWidth(Entries(Decoded(unread[..n], decode))) - if n == 0 then 0 else 20
    ensures ListAdded(e, n, unread, decode, version, room)
  {
    hide ListSays, Longest, Entries, ItemsWidth, Decoded;
  }
}
