/** The file-backed queue (c_modules/fqueue/src/fqueue.c): a directory with one numbered file
    per item, written by one end and drained by the other.

    The methods of `FileQueue` follow the source; `Queue`, `Apply` and `Run` put a writer, a
    reader and power failures together as a step system over the same functions.
 */
module FileQueue {
  import opened Options
  import opened Text

  type Bytes = seq<bv8>
  type Files = map<string, Bytes>

  const INT_MAX: nat := 0x7FFF_FFFF
  const EINVAL: int := 22
  const ENOMEM: int := 12
  const EAGAIN: int := 11
  const EBADF: int := 9
  const MIN_BFREE: nat := 512

  function Name(i: nat): string {
    Padded(i, 3)
  }

  lemma NameInjective(i: nat, j: nat)
    requires i <= INT_MAX && j <= INT_MAX && Name(i) == Name(j)
    ensures i == j
  {
    StrToLPadded(i, 3);
    StrToLPadded(j, 3);
  }

  /** Item `i` has been written and not yet removed. */
  predicate Live(files: Files, i: nat) {
    Name(i) in files && files[Name(i)] != []
  }

  /** The live items with indices in [lo, hi), oldest first. */
  function Items(files: Files, lo: nat, hi: nat): seq<Bytes>
    decreases hi - lo
  {
    if lo >= hi then []
    else (if Live(files, lo) then [files[Name(lo)]] else []) + Items(files, lo + 1, hi)
  }

  /** The oldest live index in [lo, hi), or 0. */
  function Oldest(files: Files, lo: nat, hi: nat): nat
    decreases hi - lo
  {
    if lo >= hi then 0 else if Live(files, lo) then lo else Oldest(files, lo + 1, hi)
  }

  /** One past the newest live index below `hi`, or 0. */
  function AfterNewest(files: Files, hi: nat): nat {
    if hi == 0 then 0 else if Live(files, hi - 1) then hi else AfterNewest(files, hi - 1)
  }

  ghost predicate LiveBelow(files: Files, hi: nat) {
    forall i: nat :: i <= INT_MAX && Live(files, i) ==> i < hi
  }

  ghost predicate NoneLiveBelow(files: Files, lo: nat) {
    forall i: nat :: i < lo ==> !Live(files, i)
  }

  // ----- The directory scan -----

  datatype Dirent = Dirent(name: string, isDirectory: bool, size: nat)

  predicate Counts(e: Dirent) {
    !e.isDirectory && e.size > 0
  }

  function Number(e: Dirent): int {
    StrToL(e.name, 0).value
  }

  /** `entries` is a listing of the directory, in any order. */
  ghost predicate Lists(files: Files, entries: seq<Dirent>) {
    && (forall k :: 0 <= k < |entries| && !entries[k].isDirectory ==>
          && entries[k].name in files
          && entries[k].size == |files[entries[k].name]|
          && exists i: nat :: i < INT_MAX && entries[k].name == Name(i))
    && (forall name :: name in files ==>
          exists k :: 0 <= k < |entries| && !entries[k].isDirectory && entries[k].name == name)
  }

  /** The indices of the items a listing shows. */
  ghost function Indices(entries: seq<Dirent>): set<int> {
    set k | 0 <= k < |entries| && Counts(entries[k]) :: Number(entries[k])
  }

  /** The loop's variables while it scans: least and greatest index, or INT_MAX and -1. */
  ghost predicate Spans(indices: set<int>, first: int, last: int) {
    && (indices == {} ==> first == INT_MAX && last == -1)
    && (indices != {} ==> first in indices && last in indices)
    && forall i :: i in indices ==> first <= i <= last
  }

  lemma SpansAdd(indices: set<int>, first: int, last: int, i: int)
    requires Spans(indices, first, last) && 0 <= i < INT_MAX
    ensures Spans(indices + {i}, if i < first then i else first, if i > last then i else last)
  {
  }

  method FindFirstAndLast(entries: seq<Dirent>) returns (first: int, last: int)
    requires forall i :: i in Indices(entries) ==> 0 <= i < INT_MAX
    ensures Indices(entries) == {} ==> first == 0 && last == 0
    ensures Indices(entries) != {} ==> first in Indices(entries) && last - 1 in Indices(entries)
    ensures forall i :: i in Indices(entries) ==> first <= i < last
  {
    first, last := INT_MAX, -1;
    for n := 0 to |entries|
      invariant Spans(Indices(entries[..n]), first, last)
    {
      ScanStep(entries, n, first, last);
      hide Spans, Indices;
      var entry := entries[n];
      if !entry.isDirectory {
        if entry.size > 0 {
          var current := Number(entry);
          if current < first {
            first := current;
          }
          if current > last {
            last := current;
          }
        }
      }
    }
    assert entries[..|entries|] == entries;
    if first == INT_MAX {
      first := 0;
    }
    if last < 0 {
      last := 0;
    } else {
      last := last + 1;
    }
  }

  lemma ScanStep(entries: seq<Dirent>, n: nat, first: int, last: int)
    requires n < |entries| && Spans(Indices(entries[..n]), first, last)
    requires forall i :: i in Indices(entries) ==> 0 <= i < INT_MAX
    ensures !Counts(entries[n]) ==> Spans(Indices(entries[..n + 1]), first, last)
    ensures Counts(entries[n]) ==>
              var i := Number(entries[n]);
              Spans(Indices(entries[..n + 1]), if i < first then i else first, if i > last then i else last)
  {
    hide Spans, Counts, Number, Indices;
    IndicesAppend(entries[..n], entries[n]);
    assert entries[..n + 1] == entries[..n] + [entries[n]];
    if Counts(entries[n]) {
      IndicesPrefix(entries, n + 1);
      assert Number(entries[n]) in Indices(entries[..n + 1]);
      SpansAdd(Indices(entries[..n]), first, last, Number(entries[n]));
    } else {
      assert Indices(entries[..n]) + {} == Indices(entries[..n]);
    }
  }

  lemma IndicesPrefix(entries: seq<Dirent>, n: nat)
    requires n <= |entries|
    ensures Indices(entries[..n]) <= Indices(entries)
  {
    forall i | i in Indices(entries[..n])
      ensures i in Indices(entries)
    {
      var k :| 0 <= k < n && Counts(entries[..n][k]) && Number(entries[..n][k]) == i;
      assert entries[k] == entries[..n][k];
    }
  }

  lemma IndicesAppend(entries: seq<Dirent>, e: Dirent)
    ensures Indices(entries + [e]) == Indices(entries) + if Counts(e) then {Number(e)} else {}
  {
    var all := entries + [e];
    forall i | i in Indices(entries)
      ensures i in Indices(all)
    {
      var k :| 0 <= k < |entries| && Counts(entries[k]) && Number(entries[k]) == i;
      assert all[k] == entries[k];
    }
    assert all[|entries|] == e;
  }

  lemma {:induction false} OldestIs(files: Files, lo: nat, hi: nat)
    ensures (forall i: nat :: lo <= i < hi ==> !Live(files, i)) ==> Oldest(files, lo, hi) == 0
    ensures forall i: nat :: lo <= i < hi && Live(files, i) ==>
              && lo <= Oldest(files, lo, hi) <= i && Live(files, Oldest(files, lo, hi))
    decreases hi - lo
  {
    if lo < hi {
      OldestIs(files, lo + 1, hi);
    }
  }

  lemma {:induction false} AfterNewestIs(files: Files, hi: nat)
    ensures (forall i: nat :: i < hi ==> !Live(files, i)) ==> AfterNewest(files, hi) == 0
    ensures forall i: nat :: i < hi && Live(files, i) ==>
              && i < AfterNewest(files, hi) <= hi && Live(files, AfterNewest(files, hi) - 1)
    ensures AfterNewest(files, hi) <= hi
  {
    if hi > 0 {
      AfterNewestIs(files, hi - 1);
    }
  }

  lemma ListedIndex(files: Files, entries: seq<Dirent>, k: nat)
    requires Lists(files, entries) && k < |entries| && Counts(entries[k])
    ensures 0 <= Number(entries[k]) < INT_MAX && Live(files, Number(entries[k]))
  {
    var i: nat :| i < INT_MAX && entries[k].name == Name(i);
    StrToLPadded(i, 3);
  }

  lemma LiveIsListed(files: Files, entries: seq<Dirent>, i: nat)
    requires Lists(files, entries) && Live(files, i) && i <= INT_MAX
    ensures i in Indices(entries)
  {
    var k :| 0 <= k < |entries| && !entries[k].isDirectory && entries[k].name == Name(i);
    StrToLPadded(i, 3);
    assert Counts(entries[k]) && Number(entries[k]) == i;
  }

  lemma IndicesAreLive(files: Files, entries: seq<Dirent>, hi: nat)
    requires Lists(files, entries) && LiveBelow(files, hi) && hi <= INT_MAX
    ensures forall i: nat :: i < hi && Live(files, i) ==> i in Indices(entries)
    ensures forall i :: i in Indices(entries) ==> 0 <= i < hi && Live(files, i)
    ensures forall i :: i in Indices(entries) ==> 0 <= i < INT_MAX
  {
    hide Live, Counts, Number;
    forall i | i in Indices(entries)
      ensures 0 <= i < hi && Live(files, i)
    {
      var k :| 0 <= k < |entries| && Counts(entries[k]) && Number(entries[k]) == i;
      ListedIndex(files, entries, k);
    }
    forall i: nat | i < hi && Live(files, i)
      ensures i in Indices(entries)
    {
      LiveIsListed(files, entries, i);
    }
  }

  /** The scan of any listing finds the oldest item and the slot behind the newest one. */
  lemma ScanFinds(files: Files, entries: seq<Dirent>, hi: nat, first: int, last: int)
    requires Lists(files, entries) && LiveBelow(files, hi) && hi <= INT_MAX
    requires Indices(entries) == {} ==> first == 0 && last == 0
    requires Indices(entries) != {} ==> first in Indices(entries) && last - 1 in Indices(entries)
    requires forall i :: i in Indices(entries) ==> first <= i < last
    ensures first == Oldest(files, 0, hi) && last == AfterNewest(files, hi)
  {
    IndicesAreLive(files, entries, hi);
    hide Indices, Lists, LiveBelow, Live, Oldest, AfterNewest;
    if Indices(entries) == {} {
      OldestIs(files, 0, hi);
      AfterNewestIs(files, hi);
    } else {
      OldestIsUnique(files, 0, hi, first);
      AfterNewestIsUnique(files, hi, last);
    }
  }

  lemma OldestIsUnique(files: Files, lo: nat, hi: nat, n: nat)
    requires lo <= n < hi && Live(files, n) && forall i: nat :: lo <= i < hi && Live(files, i) ==> n <= i
    ensures Oldest(files, lo, hi) == n
  {
    OldestIs(files, lo, hi);
  }

  lemma AfterNewestIsUnique(files: Files, hi: nat, n: nat)
    requires 0 < n <= hi && Live(files, n - 1) && forall i: nat :: i < hi && Live(files, i) ==> i < n
    ensures AfterNewest(files, hi) == n
  {
    AfterNewestIs(files, hi);
  }

  // ----- What put and read do to the directory -----

  /** Writing at offset 0 of a file that may already have content. */
  function Overwrite(content: Bytes, data: Bytes): Bytes {
    data + if |content| > |data| then content[|data|..] else []
  }

  function Content(files: Files, i: nat): Bytes {
    if Name(i) in files then files[Name(i)] else []
  }

  /** The directory after an open for writing, and after the write that follows it. */
  function Created(files: Files, i: nat): Files {
    files[Name(i) := Content(files, i)]
  }

  function Written(files: Files, i: nat, data: Bytes): Files {
    files[Name(i) := Overwrite(Content(files, i), data)]
  }

  function Removed(files: Files, i: nat): Files {
    map name | name in files && name != Name(i) :: files[name]
  }

  /** What one non-blocking read reports: an item; success without data, because the file exists
      but is empty; or an error. */
  datatype Outcome = Item(data: Bytes) | Blank | Nothing(error: int)

  function Read(files: Files, i: nat, ready: bool): Outcome {
    if Name(i) !in files then Nothing(if ready then -EBADF else -EAGAIN)
    else if files[Name(i)] == [] then Blank
    else Item(files[Name(i)])
  }

  /** The counting semaphore (limit 1) is taken by a read that finds no data. */
  function ReadyAfter(files: Files, i: nat, ready: bool): bool {
    ready && Read(files, i, ready).Item?
  }

  /** A read that does not wait finds the bytes of its slot's file, success without data when that is
      empty, and without the file the error of a poll, or of the failing read after a wake-up.  Only
      one that finds data leaves the semaphore given. */
  lemma ReadsMean(files: Files, i: nat, ready: bool)
    ensures Name(i) in files && files[Name(i)] != [] ==>
              Read(files, i, ready) == Item(files[Name(i)]) && ReadyAfter(files, i, ready) == ready
    ensures Name(i) in files && files[Name(i)] == [] ==>
              Read(files, i, ready) == Blank && !ReadyAfter(files, i, ready)
    ensures Name(i) !in files ==>
              Read(files, i, ready) == Nothing(if ready then -9 else -11) && !ReadyAfter(files, i, ready)
  {
  }

  // ----- The source's operations -----

  datatype Mode = FQ_READ | FQ_WRITE

  /** The flash directory and the global semaphore, shared by all queue handles. */
  class Directory {
    var files: Files
    var ready: bool

    constructor ()
      ensures files == map[] && !ready
    {
      files, ready := map[], false;
    }
  }

  class FileQueue {
    const dir: Directory
    const mode: Mode
    var curIdx: nat

    /** fqueue_init; `entries` is the directory listing in the order the file system reports it. */
    constructor (dir: Directory, mode: Mode, entries: seq<Dirent>, ghost hi: nat)
      requires Lists(dir.files, entries) && LiveBelow(dir.files, hi) && hi <= INT_MAX
      ensures this.dir == dir && this.mode == mode
      ensures mode == FQ_READ ==> curIdx == Oldest(dir.files, 0, hi)
      ensures mode == FQ_WRITE ==> curIdx == AfterNewest(dir.files, hi)
    {
      hide *;
      IndicesAreLive(dir.files, entries, hi);
      var first, last := FindFirstAndLast(entries);
      ScanFinds(dir.files, entries, hi, first, last);
      this.dir, this.mode := dir, mode;
      match mode {
        case FQ_WRITE =>
          curIdx := last;
        case FQ_READ =>
          curIdx := first;
      }
    }

    /** `freeBlocks`, `openRet` and `writeRet` are what the file system answers: the free blocks,
        the result of opening the file and the result of writing to it, an error or the number of
        bytes written.  A short write is reported as success. */
    method Put(data: Bytes, freeBlocks: nat, openRet: int, writeRet: int) returns (ret: int)
      requires writeRet <= |data|
      modifies this`curIdx, dir
      ensures mode != FQ_WRITE ==> ret == -22
      ensures mode == FQ_WRITE && freeBlocks < 512 ==> ret == -12
      ensures mode != FQ_WRITE || freeBlocks < 512 ==>
                curIdx == old(curIdx) && dir.files == old(dir.files) && dir.ready == old(dir.ready)
      ensures mode == FQ_WRITE && freeBlocks >= 512 ==> curIdx == old(curIdx) + 1
      ensures mode == FQ_WRITE && freeBlocks >= 512 && openRet != 0 ==>
                ret == openRet && dir.files == old(dir.files) && dir.ready == old(dir.ready)
      ensures mode == FQ_WRITE && freeBlocks >= 512 && openRet == 0 ==>
                && ret == (if writeRet < 0 then writeRet else 0)
                && dir.ready
                && dir.files == if writeRet < 0 then Created(old(dir.files), old(curIdx))
                                else Written(old(dir.files), old(curIdx), data[..writeRet])
    {
      if mode != FQ_WRITE {
        return -EINVAL;
      }
      if freeBlocks < MIN_BFREE {
        return -ENOMEM;
      }
      var fname := Name(curIdx);
      curIdx := curIdx + 1;
      if openRet != 0 {
        return openRet;
      }
      var content := if fname in dir.files then dir.files[fname] else [];
      dir.files := dir.files[fname := content];
      ret := writeRet;
      if ret >= 0 {
        dir.files := dir.files[fname := Overwrite(content, data[..ret])];
      }
      if ret > 0 {
        ret := 0;
      }
      dir.ready := true;
    }

    /** fqueue_read with K_NO_WAIT: fqueue_get when `doRemove`, otherwise fqueue_peek.  The caller's
        buffer holds `size` bytes; an item that does not fit into it is read in full all the same. */
    method ReadNext(size: nat, doRemove: bool) returns (ret: int, data: Bytes, fits: bool)
      modifies this`curIdx, dir
      ensures mode != FQ_READ ==>
                && ret == -22 && data == [] && fits
                && curIdx == old(curIdx) && dir.files == old(dir.files) && dir.ready == old(dir.ready)
      ensures mode == FQ_READ ==>
                var outcome := Read(old(dir.files), old(curIdx), old(dir.ready));
                && dir.ready == ReadyAfter(old(dir.files), old(curIdx), old(dir.ready))
                && ret == (if outcome.Nothing? then outcome.error else 0)
                && data == (if outcome.Item? then outcome.data else []) && fits == (|data| <= size)
                && curIdx == old(curIdx) + (if outcome.Item? && doRemove then 1 else 0)
                && dir.files == if outcome.Item? && doRemove then Removed(old(dir.files), old(curIdx))
                                else old(dir.files)
    {
      data, fits := [], true;
      if mode != FQ_READ {
        return -EINVAL, data, fits;
      }
      var fname := Name(curIdx);
      if fname !in dir.files {
        // polling the semaphore does not wait
        if !dir.ready {
          return -EAGAIN, data, fits;
        }
        // woken: the loop is left without an open file, and the read on it fails
        dir.ready := false;
        return -EBADF, data, fits;
      }
      var content := dir.files[fname];
      if content == [] {
        // the file has not been written yet: take the semaphore until there is none
        var taken := true;
        while taken
          invariant dir.ready ==> taken
          invariant dir.files == old(dir.files) && curIdx == old(curIdx)
          decreases dir.ready, taken
        {
          taken := dir.ready;
          dir.ready := false;
        }
      }
      var bytesToRead := size;
      if |content| > size {
        bytesToRead := |content|;
      }
      data := content[..if |content| < bytesToRead then |content| else bytesToRead];
      ret, fits := |data|, bytesToRead == size;
      if ret > 0 {
        if doRemove {
          dir.files := map name | name in dir.files && name != fname :: dir.files[name];
          curIdx := curIdx + 1;
        }
        ret := 0;
      }
    }
  }

  // ----- One writer, one reader and power failures -----

  /** `pending` is the item of a put that has created its file and not written it yet. */
  datatype Queue = Queue(files: Files, w: nat, r: nat, ready: bool, pending: Option<Bytes>)

  datatype Op =
    | CreateFile(data: Bytes)   // put: the file is created and the index advanced
    | RefuseFile                // put: creating the file fails, the index is advanced all the same
    | WriteFile                 // put: the write succeeds
    | ShortWrite(n: nat)        // put: only the first `n` bytes are written
    | FailWrite                 // put: the write fails and leaves an empty file
    | Get
    | Peek
    | ReopenReader              // the reader is initialised again
    | Crash                     // power fails; both ends are initialised again

  ghost predicate Enabled(s: Queue, op: Op) {
    match op
    case CreateFile(_) => s.pending.None? && s.w < INT_MAX
    case RefuseFile => s.pending.None? && s.w < INT_MAX
    case WriteFile => s.pending.Some? && s.w > 0
    case ShortWrite(n) => s.pending.Some? && s.w > 0 && n <= |s.pending.value|
    case FailWrite => s.pending.Some?
    case _ => true
  }

  /** With the item of the put under way cut off. */
  function Shortened(s: Queue, n: nat): Queue {
    if s.pending.Some? && n <= |s.pending.value| then s.(pending := Some(s.pending.value[..n])) else s
  }

  function WriteDone(s: Queue): Queue {
    if s.pending.Some? && s.w > 0
    then s.(files := Written(s.files, s.w - 1, s.pending.value), ready := true, pending := None)
    else s
  }

  function Apply(s: Queue, op: Op): Queue {
    match op
    case CreateFile(data) => s.(files := Created(s.files, s.w), w := s.w + 1, pending := Some(data))
    case RefuseFile => s.(w := s.w + 1)
    case WriteFile => WriteDone(s)
    case ShortWrite(n) => WriteDone(Shortened(s, n))
    case FailWrite => s.(ready := true, pending := None)
    case Get =>
      var after := s.(ready := ReadyAfter(s.files, s.r, s.ready));
      if Read(s.files, s.r, s.ready).Item? then after.(files := Removed(s.files, s.r), r := s.r + 1) else after
    case Peek => s.(ready := ReadyAfter(s.files, s.r, s.ready))
    case ReopenReader => s.(r := Oldest(s.files, 0, s.w))
    case Crash => Queue(s.files, AfterNewest(s.files, s.w), Oldest(s.files, 0, s.w), false, None)
  }

  /** The semaphore is given by every write that comes to an end, taken by a read at a slot without
      data and not given after a power failure; no other step changes it. */
  lemma SemaphoreFollows(s: Queue, op: Op)
    ensures var after := Apply(s, op).ready;
            match op
            case WriteFile => s.pending.Some? && s.w > 0 ==> after
            case ShortWrite(_) => s.pending.Some? && s.w > 0 ==> after
            case FailWrite => after
            case Get => after <==> s.ready && Live(s.files, s.r)
            case Peek => after <==> s.ready && Live(s.files, s.r)
            case Crash => !after
            case _ => after == s.ready
  {
    hide Name, Created, Removed, Written;
  }

  /** The items a step hands to the reader, and those whose put it completes, as they are stored. */
  function Delivered(s: Queue, op: Op): seq<Bytes> {
    if op.Get? && Read(s.files, s.r, s.ready).Item? then [Read(s.files, s.r, s.ready).data] else []
  }

  function Completed(s: Queue, op: Op): seq<Bytes>
    decreases op.ShortWrite?
  {
    match op
    case WriteFile => if s.pending.Some? && s.pending.value != [] then [s.pending.value] else []
    case ShortWrite(n) => Completed(Shortened(s, n), WriteFile)
    case _ => []
  }

  /** The items written and not yet removed, oldest first. */
  function Unread(s: Queue): seq<Bytes> {
    Items(s.files, 0, s.w)
  }

  ghost predicate Inv(s: Queue) {
    && s.r <= s.w <= INT_MAX
    && LiveBelow(s.files, s.w)
    && NoneLiveBelow(s.files, s.r)
    && (s.pending.Some? ==> s.w > 0 && Content(s.files, s.w - 1) == [] && s.r < s.w)
  }

  // ----- Lemmas about the items -----

  ghost predicate SameBetween(f: Files, g: Files, lo: nat, hi: nat) {
    forall i: nat :: lo <= i < hi ==> Content(f, i) == Content(g, i)
  }

  lemma {:induction false} ItemsFrame(f: Files, g: Files, lo: nat, hi: nat)
    requires SameBetween(f, g, lo, hi)
    ensures Items(f, lo, hi) == Items(g, lo, hi)
    decreases hi - lo
  {
    if lo < hi {
      assert Content(f, lo) == Content(g, lo);
      ItemsFrame(f, g, lo + 1, hi);
    }
  }

  lemma {:induction false} ItemsSplit(files: Files, lo: nat, mid: nat, hi: nat)
    requires lo <= mid <= hi
    ensures Items(files, lo, hi) == Items(files, lo, mid) + Items(files, mid, hi)
    decreases mid - lo
  {
    if lo < mid {
      ItemsSplit(files, lo + 1, mid, hi);
    }
  }

  lemma {:induction false} ItemsNone(files: Files, lo: nat, hi: nat)
    requires forall i: nat :: lo <= i < hi ==> !Live(files, i)
    ensures Items(files, lo, hi) == []
    decreases hi - lo
  {
    if lo < hi {
      ItemsNone(files, lo + 1, hi);
    }
  }

  lemma ItemsOne(files: Files, i: nat)
    ensures Items(files, i, i + 1) == if Live(files, i) then [files[Name(i)]] else []
  {
  }

  /** Changing the file of one index leaves the content of every other index alone. */
  lemma OthersKept(files: Files, i: nat, content: Bytes)
    requires i <= INT_MAX
    ensures forall j: nat :: j <= INT_MAX && j != i ==> Content(files[Name(i) := content], j) == Content(files, j)
    ensures forall j: nat :: j <= INT_MAX && j != i ==> Content(Removed(files, i), j) == Content(files, j)
    ensures Content(files[Name(i) := content], i) == content && Content(Removed(files, i), i) == []
  {
    forall j: nat | j <= INT_MAX && j != i
      ensures Name(j) != Name(i)
    {
      if Name(j) == Name(i) {
        NameInjective(i, j);
      }
    }
  }

  /** A new item at the writer's index is appended and overwrites nothing. */
  lemma ItemsAppend(files: Files, w: nat, data: Bytes)
    requires w <= INT_MAX && !Live(files, w)
    ensures Items(files[Name(w) := data], 0, w + 1) == Items(files, 0, w) + if data != [] then [data] else []
  {
    var g := files[Name(w) := data];
    OthersKept(files, w, data);
    hide Live, Content, Name;
    assert Items(g, 0, w + 1) == Items(g, 0, w) + Items(g, w, w + 1) by {
      ItemsSplit(g, 0, w, w + 1);
    }
    ItemsFrame(files, g, 0, w);
    ItemsOne(g, w);
    LiveIsContent(g, w);
  }

  lemma LiveIsContent(files: Files, i: nat)
    ensures Live(files, i) <==> Content(files, i) != []
    ensures Live(files, i) ==> files[Name(i)] == Content(files, i)
  {
  }

  lemma ItemsFrom(files: Files, r: nat, w: nat)
    requires r < w && NoneLiveBelow(files, r)
    ensures Items(files, 0, w) == Items(files, r, r + 1) + Items(files, r + 1, w)
  {
    ItemsNone(files, 0, r);
    hide *;
    assert Items(files, 0, w) == Items(files, r, w) by {
      ItemsSplit(files, 0, r, w);
    }
    ItemsSplit(files, r, r + 1, w);
  }

  lemma NoneLiveKept(f: Files, g: Files, r: nat)
    requires NoneLiveBelow(f, r) && SameBetween(f, g, 0, r)
    ensures NoneLiveBelow(g, r)
  {
    forall i: nat | i < r
      ensures !Live(g, i)
    {
      assert Content(f, i) == Content(g, i);
      LiveIsContent(f, i);
      LiveIsContent(g, i);
    }
  }

  lemma LiveBelowKept(f: Files, g: Files, i: nat, hi: nat)
    requires LiveBelow(f, hi) && i < hi
    requires forall j: nat :: j <= INT_MAX && j != i ==> Content(f, j) == Content(g, j)
    ensures LiveBelow(g, hi)
  {
    forall j: nat | j <= INT_MAX && Live(g, j)
      ensures j < hi
    {
      LiveIsContent(f, j);
      LiveIsContent(g, j);
    }
  }

  /** Removing the oldest item removes the head. */
  lemma ItemsRemove(files: Files, r: nat, w: nat)
    requires r < w <= INT_MAX && Live(files, r) && NoneLiveBelow(files, r)
    ensures Items(files, 0, w) == [files[Name(r)]] + Items(Removed(files, r), 0, w)
    ensures NoneLiveBelow(Removed(files, r), r + 1)
  {
    var g := Removed(files, r);
    RemovedGap(files, r);
    assert Items(files, r, r + 1) == [files[Name(r)]] by {
      ItemsOne(files, r);
    }
    assert Items(g, 0, w) == Items(files, r + 1, w) by {
      OthersKept(files, r, []);
      hide Items, Live, Content, Name, Removed, NoneLiveBelow;
      ItemsSplit(g, 0, r + 1, w);
      ItemsFrame(files, g, r + 1, w);
    }
    hide Items, Live, Content, Name, Removed;
    ItemsFrom(files, r, w);
  }

  lemma RemovedGap(files: Files, r: nat)
    requires r < INT_MAX && NoneLiveBelow(files, r)
    ensures NoneLiveBelow(Removed(files, r), r + 1) && Items(Removed(files, r), 0, r + 1) == []
  {
    var g := Removed(files, r);
    OthersKept(files, r, []);
    LiveIsContent(g, r);
    hide Content, Name, Removed, Live, Items;
    NoneLiveKept(files, g, r);
    ItemsNone(g, 0, r + 1);
  }

  // ----- Every step -----

  lemma CreateKeeps(s: Queue, data: Bytes)
    requires Inv(s) && Enabled(s, CreateFile(data))
    ensures Inv(Apply(s, CreateFile(data)))
    ensures Unread(Apply(s, CreateFile(data))) == Unread(s)
    ensures !Live(s.files, s.w)
  {
    LiveIsContent(s.files, s.w);
    assert !Live(s.files, s.w);
    var g := Created(s.files, s.w);
    OthersKept(s.files, s.w, []);
    ItemsAppend(s.files, s.w, []);
    hide Live, Content, Name, Items;
    NoneLiveKept(s.files, g, s.r);
    assert LiveBelow(s.files, s.w + 1);
    LiveBelowKept(s.files, g, s.w, s.w + 1);
  }

  lemma WriteKeeps(s: Queue)
    requires Inv(s) && Enabled(s, WriteFile)
    ensures Inv(Apply(s, WriteFile))
    ensures Unread(Apply(s, WriteFile)) == Unread(s) + Completed(s, WriteFile)
  {
    var i, data := s.w - 1, s.pending.value;
    var g := Written(s.files, i, data);
    assert Overwrite([], data) == data;
    assert g == s.files[Name(i) := data];
    LiveIsContent(s.files, i);
    OthersKept(s.files, i, data);
    ItemsAppend(s.files, i, data);
    assert Items(s.files, 0, s.w) == Items(s.files, 0, i) by {
      ItemsSplit(s.files, 0, i, s.w);
      ItemsOne(s.files, i);
    }
    hide Live, Content, Name, Items, Written;
    NoneLiveKept(s.files, g, s.r);
    LiveBelowKept(s.files, g, i, s.w);
  }

  /** A short write is the write of a shorter item. */
  lemma ShortWriteKeeps(s: Queue, n: nat)
    requires Inv(s) && Enabled(s, ShortWrite(n))
    ensures Inv(Shortened(s, n)) && Enabled(Shortened(s, n), WriteFile)
    ensures Apply(s, ShortWrite(n)) == Apply(Shortened(s, n), WriteFile)
    ensures Inv(Apply(s, ShortWrite(n)))
    ensures Unread(Apply(s, ShortWrite(n))) == Unread(s) + Completed(s, ShortWrite(n))
  {
    WriteKeeps(Shortened(s, n));
  }

  lemma GetKeeps(s: Queue)
    requires Inv(s)
    ensures Inv(Apply(s, Get))
    ensures Unread(s) == Delivered(s, Get) + Unread(Apply(s, Get))
  {
    if Read(s.files, s.r, s.ready).Item? {
      assert Live(s.files, s.r);
      var g := Removed(s.files, s.r);
      ItemsRemove(s.files, s.r, s.w);
      OthersKept(s.files, s.r, []);
      hide Live, Content, Name, Items, Removed;
      LiveBelowKept(s.files, g, s.r, s.w);
    }
  }

  lemma OldestKeeps(s: Queue)
    requires Inv(s)
    ensures Oldest(s.files, 0, s.w) <= s.w && NoneLiveBelow(s.files, Oldest(s.files, 0, s.w))
    ensures s.w > 0 ==> Oldest(s.files, 0, s.w) < s.w
    ensures Oldest(s.files, 0, s.w) <= AfterNewest(s.files, s.w) <= s.w
    ensures LiveBelow(s.files, AfterNewest(s.files, s.w))
    ensures Items(s.files, 0, AfterNewest(s.files, s.w)) == Items(s.files, 0, s.w)
  {
    OldestIs(s.files, 0, s.w);
    AfterNewestIs(s.files, s.w);
    ItemsSplit(s.files, 0, AfterNewest(s.files, s.w), s.w);
    ItemsNone(s.files, AfterNewest(s.files, s.w), s.w);
  }

  lemma CrashKeeps(s: Queue)
    requires Inv(s)
    ensures Inv(Apply(s, Crash)) && Unread(Apply(s, Crash)) == Unread(s)
  {
    OldestKeeps(s);
    hide Live, Items, Oldest, AfterNewest, NoneLiveBelow, LiveBelow;
  }

  lemma ReopenKeeps(s: Queue)
    requires Inv(s)
    ensures Inv(Apply(s, ReopenReader)) && Unread(Apply(s, ReopenReader)) == Unread(s)
  {
    OldestKeeps(s);
    hide Live, Items, Oldest, AfterNewest, NoneLiveBelow, LiveBelow;
  }

  lemma RefuseKeeps(s: Queue)
    requires Inv(s) && Enabled(s, RefuseFile)
    ensures Inv(Apply(s, RefuseFile)) && Unread(Apply(s, RefuseFile)) == Unread(s)
  {
    ItemsSplit(s.files, 0, s.w, s.w + 1);
    ItemsOne(s.files, s.w);
    assert !Live(s.files, s.w);
    hide Live, Items;
  }

  /** Every step keeps the invariant and conserves items: what was unread, followed by the items
      whose put the step completes, is what it delivers followed by what is unread afterwards. */
  lemma StepConserves(s: Queue, op: Op)
    requires Inv(s) && Enabled(s, op)
    ensures Inv(Apply(s, op))
    ensures Unread(s) + Completed(s, op) == Delivered(s, op) + Unread(Apply(s, op))
  {
    hide Inv, Unread;
    match op {
      case CreateFile(data) => CreateKeeps(s, data);
      case RefuseFile => RefuseKeeps(s);
      case WriteFile => WriteKeeps(s);
      case ShortWrite(n) => ShortWriteKeeps(s, n);
      case FailWrite => FailPeekKeep(s);
      case Get => GetKeeps(s);
      case Peek => FailPeekKeep(s);
      case ReopenReader => ReopenKeeps(s);
      case Crash => CrashKeeps(s);
    }
  }

  lemma FailPeekKeep(s: Queue)
    requires Inv(s)
    ensures Inv(Apply(s, FailWrite)) && Unread(Apply(s, FailWrite)) == Unread(s)
    ensures Inv(Apply(s, Peek)) && Unread(Apply(s, Peek)) == Unread(s)
  {
    hide Live, Items, NoneLiveBelow, LiveBelow, Content;
  }

  // ----- Whole runs -----

  ghost predicate AllEnabled(s: Queue, ops: seq<Op>)
    decreases |ops|
  {
    ops == [] || (Enabled(s, ops[0]) && AllEnabled(Apply(s, ops[0]), ops[1..]))
  }

  function Run(s: Queue, ops: seq<Op>): Queue
    decreases |ops|
  {
    if ops == [] then s else Run(Apply(s, ops[0]), ops[1..])
  }

  function DeliveredBy(s: Queue, ops: seq<Op>): seq<Bytes>
    decreases |ops|
  {
    if ops == [] then [] else Delivered(s, ops[0]) + DeliveredBy(Apply(s, ops[0]), ops[1..])
  }

  function CompletedBy(s: Queue, ops: seq<Op>): seq<Bytes>
    decreases |ops|
  {
    if ops == [] then [] else Completed(s, ops[0]) + CompletedBy(Apply(s, ops[0]), ops[1..])
  }

  /** No run loses, repeats or reorders an item, whatever puts fail and however often the reader is
      initialised again or power fails. */
  lemma {:induction false} RunConserves(s: Queue, ops: seq<Op>)
    requires Inv(s) && AllEnabled(s, ops)
    ensures Inv(Run(s, ops))
    ensures Unread(s) + CompletedBy(s, ops) == DeliveredBy(s, ops) + Unread(Run(s, ops))
    decreases |ops|
  {
    if ops != [] {
      var op, t := ops[0], Apply(s, ops[0]);
      StepConserves(s, op);
      RunConserves(t, ops[1..]);
      hide Inv, Unread, Delivered, Completed, Apply, Run, DeliveredBy, CompletedBy;
      Regroup(Unread(s), Completed(s, op), Delivered(s, op), Unread(t),
              CompletedBy(t, ops[1..]), DeliveredBy(t, ops[1..]), Unread(Run(t, ops[1..])));
    }
  }

  lemma Regroup<T>(u: seq<T>, c: seq<T>, d: seq<T>, v: seq<T>, cs: seq<T>, ds: seq<T>, end: seq<T>)
    requires u + c == d + v && v + cs == ds + end
    ensures u + (c + cs) == (d + ds) + end
  {
    assert u + (c + cs) == (u + c) + cs;
    assert (d + v) + cs == d + (v + cs);
    assert d + (ds + end) == (d + ds) + end;
  }

  const EMPTY := Queue(map[], 0, 0, false, None)

  /** The directory refines a FIFO: from the empty directory, the items delivered are a prefix of
      the items put, in order, and the rest is still to be read. */
  lemma Fifo(ops: seq<Op>)
    requires AllEnabled(EMPTY, ops)
    ensures CompletedBy(EMPTY, ops) == DeliveredBy(EMPTY, ops) + Unread(Run(EMPTY, ops))
    ensures Inv(Run(EMPTY, ops))
  {
    RunConserves(EMPTY, ops);
  }

  lemma RunTwo(s: Queue, a: Op, b: Op)
    ensures Run(s, [a, b]) == Apply(Apply(s, a), b)
  {
    hide Apply;
    assert [a, b][1..] == [b];
    assert Run(Apply(s, a), [b]) == Run(Apply(Apply(s, a), b), []);
  }

  /** A put that succeeds is the two steps together. */
  lemma PutIsSteps(s: Queue, data: Bytes)
    requires Inv(s) && Enabled(s, CreateFile(data))
    ensures Run(s, [CreateFile(data), WriteFile]) ==
              Queue(Written(s.files, s.w, data), s.w + 1, s.r, true, None)
    ensures Unread(Run(s, [CreateFile(data), WriteFile])) == Unread(s) + if data != [] then [data] else []
  {
    hide Unread, Inv, Live, Run, Written, Created, Name;
    CreateKeeps(s, data);
    WriteKeeps(Apply(s, CreateFile(data)));
    RunTwo(s, CreateFile(data), WriteFile);
    WrittenAfterCreated(s.files, s.w, data);
  }

  lemma WrittenAfterCreated(files: Files, i: nat, data: Bytes)
    ensures Written(Created(files, i), i, data) == Written(files, i, data)
  {
    hide Name;
  }

  /** A read finds an item exactly when the reader's slot is live; it is then the oldest unread
      item, and a peek before the get shows that same item. */
  lemma GetIsHead(s: Queue)
    requires Inv(s)
    ensures Read(s.files, s.r, s.ready).Item? <==> Live(s.files, s.r)
    ensures Live(s.files, s.r) ==>
              && Unread(s) != [] && Read(s.files, s.r, s.ready).data == Unread(s)[0]
              && Unread(Apply(s, Get)) == Unread(s)[1..]
    ensures Delivered(Apply(s, Peek), Get) == Delivered(s, Get)
  {
    GetKeeps(s);
    hide Unread, Inv;
  }

  lemma {:induction false} OldestOfSome(files: Files, lo: nat, hi: nat)
    requires Items(files, lo, hi) != []
    ensures lo <= Oldest(files, lo, hi) < hi && Live(files, Oldest(files, lo, hi))
    decreases hi - lo
  {
    if !Live(files, lo) {
      OldestOfSome(files, lo + 1, hi);
    }
  }

  lemma {:induction false} AfterNewestOfSome(files: Files, hi: nat)
    requires Items(files, 0, hi) != []
    ensures 0 < AfterNewest(files, hi) <= hi && Live(files, AfterNewest(files, hi) - 1)
  {
    AfterNewestIs(files, hi);
    OldestOfSome(files, 0, hi);
  }

  /** After a power failure at any point everything written is still there, the writer is past
      every item and on a free slot, and the reader is on the oldest item. */
  lemma CrashIsSafe(s: Queue)
    requires Inv(s)
    ensures var t := Apply(s, Crash);
            && Inv(t) && Unread(t) == Unread(s) && t.files == s.files
            && (forall i: nat :: i <= INT_MAX && Live(t.files, i) ==> t.r <= i < t.w)
            && !Live(t.files, t.w)
            && (Unread(s) != [] ==> Live(t.files, t.r) && Live(t.files, t.w - 1))
  {
    CrashKeeps(s);
    if Unread(s) != [] {
      OldestOfSome(s.files, 0, s.w);
      AfterNewestOfSome(s.files, s.w);
    }
  }

  /** A reader that has just been initialised again gets the oldest item if there is one. */
  lemma ReopenedReaderGets(s: Queue)
    requires Inv(s)
    ensures var t := Apply(s, ReopenReader);
            Delivered(t, Get) == if Unread(s) != [] then [Unread(s)[0]] else []
  {
    ReopenKeeps(s);
    var t := Apply(s, ReopenReader);
    GetIsHead(t);
    if Unread(s) != [] {
      OldestOfSome(s.files, 0, s.w);
    } else {
      NoneIsLive(s.files, s.w, t.r);
    }
  }

  lemma {:induction false} ItemIsListed(files: Files, lo: nat, hi: nat, i: nat)
    requires lo <= i < hi && Live(files, i)
    ensures Items(files, lo, hi) != []
    decreases i - lo
  {
    if lo < i {
      ItemIsListed(files, lo + 1, hi, i);
    }
  }

  lemma NoneIsLive(files: Files, w: nat, i: nat)
    requires Items(files, 0, w) == [] && LiveBelow(files, w) && i <= INT_MAX
    ensures !Live(files, i)
  {
    if Live(files, i) {
      ItemIsListed(files, 0, w, i);
    }
  }

  /** Initialising the writer alone is safe exactly while something is unread or the reader is
      still at index 0; otherwise the writer starts again below the reader. */
  lemma ReopenedWriter(s: Queue)
    requires Inv(s) && s.pending.None?
    ensures Inv(s.(w := AfterNewest(s.files, s.w))) <==> Unread(s) != [] || s.r == 0
  {
    OldestKeeps(s);
    AfterNewestIs(s.files, s.w);
    if Unread(s) != [] {
      AfterNewestOfSome(s.files, s.w);
      OldestOfSome(s.files, 0, s.w);
    } else {
      forall i: nat | i < s.w
        ensures !Live(s.files, i)
      {
        NoneIsLive(s.files, s.w, i);
      }
    }
  }

  // ----- A reader that waits for an item that will not come -----

  /** A slot the writer has passed and the reader has not, and no item will be written to. */
  ghost predicate Gap(s: Queue, g: nat) {
    && Inv(s)
    && s.r <= g < s.w
    && !Live(s.files, g)
    && (s.pending.Some? ==> g != s.w - 1)
  }

  /** The reader is at a gap. */
  ghost predicate Stuck(s: Queue) {
    Gap(s, s.r)
  }

  predicate Restarts(op: Op) {
    op.ReopenReader? || op.Crash?
  }

  /** The items before a gap, oldest first. */
  function Before(s: Queue, g: nat): seq<Bytes> {
    Items(s.files, 0, g)
  }

  lemma WriteKeepsGap(s: Queue, g: nat, i: nat, content: Bytes)
    requires Gap(s, g) && g < i <= INT_MAX
    ensures !Live(s.files[Name(i) := content], g)
    ensures Items(s.files[Name(i) := content], 0, g) == Before(s, g)
  {
    SlotsKept(s.files, i, content);
    OthersKept(s.files, i, content);
    hide Live, Content, Name;
    ItemsFrame(s.files, s.files[Name(i) := content], 0, g);
  }

  lemma GetKeepsGap(s: Queue, g: nat)
    requires Gap(s, g)
    ensures Gap(Apply(s, Get), g) && Before(s, g) == Delivered(s, Get) + Before(Apply(s, Get), g)
  {
    GetKeeps(s);
    if Read(s.files, s.r, s.ready).Item? {
      assert Live(s.files, s.r) && s.r < g;
      ItemsRemove(s.files, s.r, g);
      SlotsKept(s.files, s.r, []);
      hide Live, Name, Removed, Items;
    }
  }

  lemma PutKeepsGap(s: Queue, g: nat, op: Op)
    requires Gap(s, g) && Enabled(s, op) && (op.CreateFile? || op.WriteFile?) && Inv(Apply(s, op))
    ensures Gap(Apply(s, op), g) && Before(s, g) == Before(Apply(s, op), g)
  {
    if op.CreateFile? {
      WriteKeepsGap(s, g, s.w, Content(s.files, s.w));
    } else {
      WriteKeepsGap(s, g, s.w - 1, Overwrite(Content(s.files, s.w - 1), s.pending.value));
    }
    hide Inv, Live, Name, Items, Content, Overwrite;
  }

  /** Nothing fills a gap or takes the reader past it, and what comes out was in front of it. */
  lemma GapStays(s: Queue, g: nat, op: Op)
    requires Gap(s, g) && Enabled(s, op) && !Restarts(op)
    ensures Gap(Apply(s, op), g) && Before(s, g) == Delivered(s, op) + Before(Apply(s, op), g)
  {
    StepConserves(s, op);
    if op.CreateFile? || op.WriteFile? {
      PutKeepsGap(s, g, op);
    } else if op.ShortWrite? {
      ShortWriteKeeps(s, op.n);
      PutKeepsGap(Shortened(s, op.n), g, WriteFile);
    } else if op.Get? {
      GetKeepsGap(s, g);
    }
    hide Inv, Live, Name, Items, Content, Overwrite, Removed, Unread, Completed;
  }

  /** Over any run in which neither end is initialised again, whatever is put, the reader gets only
      items that were in front of the gap: no item behind it, now or later. */
  lemma {:induction false} GapBlocks(s: Queue, g: nat, ops: seq<Op>)
    requires Gap(s, g) && AllEnabled(s, ops) && forall k :: 0 <= k < |ops| ==> !Restarts(ops[k])
    ensures Gap(Run(s, ops), g)
    ensures Before(s, g) == DeliveredBy(s, ops) + Before(Run(s, ops), g)
    decreases |ops|
  {
    if ops != [] {
      var t := Apply(s, ops[0]);
      GapStays(s, g, ops[0]);
      GapBlocks(t, g, ops[1..]);
      hide Gap, Before, Apply, Delivered;
      Associate(Delivered(s, ops[0]), DeliveredBy(t, ops[1..]), Before(Run(t, ops[1..]), g));
    }
  }

  lemma Associate<T>(a: seq<T>, b: seq<T>, c: seq<T>)
    ensures a + (b + c) == (a + b) + c
  {
  }

  /** A reader that has come to a gap gets nothing more. */
  lemma StuckForever(s: Queue, ops: seq<Op>)
    requires Stuck(s) && AllEnabled(s, ops) && forall k :: 0 <= k < |ops| ==> !Restarts(ops[k])
    ensures DeliveredBy(s, ops) == []
  {
    GapBlocks(s, s.r, ops);
    ItemsNone(s.files, 0, s.r);
    hide DeliveredBy, Run, AllEnabled, Items;
  }

  lemma RefuseLeavesGap(s: Queue)
    requires Inv(s) && s.pending.None? && s.w < INT_MAX
    ensures Gap(Apply(s, RefuseFile), s.w)
  {
    RefuseKeeps(s);
    assert !Live(s.files, s.w);
  }

  lemma FailLeavesGap(s: Queue, data: Bytes)
    requires Inv(s) && s.pending.None? && s.w < INT_MAX
    ensures Gap(Apply(Apply(s, CreateFile(data)), FailWrite), s.w)
    ensures Gap(Apply(Apply(s, CreateFile(data)), ShortWrite(0)), s.w)
  {
    var t := Apply(s, CreateFile(data));
    CreateKeeps(s, data);
    LiveIsContent(s.files, s.w);
    SlotsKept(s.files, s.w, Content(s.files, s.w));
    FailPeekKeep(t);
    ShortWriteKeeps(t, 0);
    assert data[..0] == [] && Content(t.files, s.w) == [];
    SlotsKept(t.files, s.w, []);
    hide Inv, Live, Name;
  }

  lemma ReopenSticks(s: Queue)
    requires Inv(s) && s.pending.None? && Unread(s) == [] && s.w > 0
    ensures Stuck(Apply(s, ReopenReader))
  {
    ReopenKeeps(s);
    forall i: nat | i <= INT_MAX
      ensures !Live(s.files, i)
    {
      NoneIsLive(s.files, s.w, i);
    }
    OldestIs(s.files, 0, s.w);
  }

  /** From any state a put that is refused, fails to write or writes nothing leaves a gap behind the
      items already there; and initialising the reader of a used queue while nothing is unread puts
      it at one. */
  lemma GapsStick(s: Queue, data: Bytes)
    requires Inv(s) && s.pending.None?
    ensures s.w < INT_MAX ==>
              && Gap(Apply(s, RefuseFile), s.w)
              && Gap(Run(s, [CreateFile(data), FailWrite]), s.w)
              && Gap(Run(s, [CreateFile(data), ShortWrite(0)]), s.w)
    ensures Unread(s) == [] && s.w > 0 ==> Stuck(Apply(s, ReopenReader))
  {
    hide Inv, Unread, Stuck, Gap, Apply;
    if s.w < INT_MAX {
      RefuseLeavesGap(s);
      FailLeavesGap(s, data);
      RunTwo(s, CreateFile(data), FailWrite);
      RunTwo(s, CreateFile(data), ShortWrite(0));
    }
    if Unread(s) == [] && s.w > 0 {
      ReopenSticks(s);
    }
  }

  lemma SlotsKept(files: Files, i: nat, content: Bytes)
    requires i <= INT_MAX
    ensures forall j: nat :: j <= INT_MAX && j != i ==>
              && (Name(j) in files[Name(i) := content] <==> Name(j) in files)
              && (Live(files[Name(i) := content], j) <==> Live(files, j))
    ensures forall j: nat :: j <= INT_MAX && j != i ==>
              && (Name(j) in Removed(files, i) <==> Name(j) in files)
              && (Live(Removed(files, i), j) <==> Live(files, j))
    ensures Live(files[Name(i) := content], i) <==> content != []
    ensures Name(i) !in Removed(files, i)
  {
    forall j: nat | j <= INT_MAX && j != i
      ensures Name(j) != Name(i)
    {
      if Name(j) == Name(i) {
        NameInjective(i, j);
      }
    }
  }

  // ----- A reader that keeps getting -----

  /** The items from slot `r` on, up to the first slot without one. */
  function Ahead(files: Files, r: nat, hi: nat): (items: seq<Bytes>)
    ensures r <= hi ==> r + |items| <= hi
    decreases hi - r
  {
    if r >= hi || !Live(files, r) then [] else [files[Name(r)]] + Ahead(files, r + 1, hi)
  }

  function AheadOf(s: Queue): seq<Bytes> {
    Ahead(s.files, s.r, s.w)
  }

  /** The slot at which a reader that keeps getting stops. */
  function StopSlot(s: Queue): nat {
    s.r + |AheadOf(s)|
  }

  function Gets(n: nat): seq<Op> {
    if n == 0 then [] else [Get] + Gets(n - 1)
  }

  lemma {:induction false} AheadFrame(f: Files, g: Files, r: nat, hi: nat)
    requires SameBetween(f, g, r, hi)
    ensures Ahead(f, r, hi) == Ahead(g, r, hi)
    decreases hi - r
  {
    if r < hi {
      assert Content(f, r) == Content(g, r);
      LiveIsContent(f, r);
      LiveIsContent(g, r);
      hide Live, Content, Name;
      AheadFrame(f, g, r + 1, hi);
    }
  }

  /** What lies between the reader and the writer is what is ahead, then what is behind the stop. */
  lemma {:induction false} AheadThenBehind(files: Files, r: nat, hi: nat)
    requires r <= hi
    ensures var d := r + |Ahead(files, r, hi)|;
            && Items(files, r, hi) == Ahead(files, r, hi) + Items(files, d, hi)
            && (d < hi ==> !Live(files, d))
    decreases hi - r
  {
    if r < hi && Live(files, r) {
      var x := [files[Name(r)]];
      AheadThenBehind(files, r + 1, hi);
      assert Items(files, r, hi) == x + Items(files, r + 1, hi) && Ahead(files, r, hi) == x + Ahead(files, r + 1, hi);
      hide *;
      Associate(x, Ahead(files, r + 1, hi), Items(files, r + 1 + |Ahead(files, r + 1, hi)|, hi));
    }
  }

  lemma GetTakesAhead(s: Queue)
    requires Inv(s)
    ensures var t := Apply(s, Get);
            && Inv(t) && t.w == s.w
            && (AheadOf(s) != [] <==> Live(s.files, s.r))
            && (AheadOf(s) != [] ==> Delivered(s, Get) == AheadOf(s)[..1] && AheadOf(t) == AheadOf(s)[1..])
            && (AheadOf(s) == [] ==> Delivered(s, Get) == [] && AheadOf(t) == [])
  {
    GetKeeps(s);
    if Live(s.files, s.r) {
      var g := Removed(s.files, s.r);
      OthersKept(s.files, s.r, []);
      hide Inv, Live, Content, Name, Removed;
      AheadFrame(s.files, g, s.r + 1, s.w);
    }
  }

  /** Any number of gets delivers the items ahead, one per get, and nothing more. */
  lemma {:induction false} GetsDeliver(s: Queue, n: nat)
    requires Inv(s)
    ensures DeliveredBy(s, Gets(n)) == AheadOf(s)[..if n < |AheadOf(s)| then n else |AheadOf(s)|]
    decreases n
  {
    if n > 0 {
      var t := Apply(s, Get);
      assert Gets(n)[0] == Get && Gets(n)[1..] == Gets(n - 1);
      GetTakesAhead(s);
      GetsDeliver(t, n - 1);
      hide Inv, AheadOf, Apply, Delivered, Gets;
    }
  }

  /** No item stands behind the slot at which the reader stops. */
  ghost predicate NothingBehind(s: Queue) {
    forall i: nat :: StopSlot(s) <= i <= INT_MAX ==> !Live(s.files, i)
  }

  lemma NothingBehindMeans(s: Queue)
    requires Inv(s)
    ensures NothingBehind(s) <==> AheadOf(s) == Unread(s)
    ensures AheadOf(s) <= Unread(s)
  {
    var d := StopSlot(s);
    AheadThenBehind(s.files, s.r, s.w);
    assert Unread(s) == Items(s.files, s.r, s.w) by {
      ItemsSplit(s.files, 0, s.r, s.w);
      ItemsNone(s.files, 0, s.r);
    }
    hide Live, Name, Ahead, Items, Unread, NoneLiveBelow;
    if NothingBehind(s) {
      ItemsNone(s.files, d, s.w);
    } else {
      var i: nat :| d <= i <= INT_MAX && Live(s.files, i);
      ItemIsListed(s.files, d, s.w, i);
    }
  }

  /** For every queue, failed puts included: a reader that gets often enough receives everything
      unread if and only if no item stands behind the first slot without one; otherwise it receives
      just the items in front of that slot. */
  lemma DrainsIff(s: Queue)
    requires Inv(s)
    ensures (exists n: nat :: DeliveredBy(s, Gets(n)) == Unread(s)) <==> NothingBehind(s)
    ensures forall n: nat :: n >= |AheadOf(s)| ==> DeliveredBy(s, Gets(n)) == AheadOf(s)
  {
    NothingBehindMeans(s);
    forall n: nat
      ensures n >= |AheadOf(s)| ==> DeliveredBy(s, Gets(n)) == AheadOf(s)
      ensures DeliveredBy(s, Gets(n)) == Unread(s) ==> AheadOf(s) == Unread(s)
    {
      GetsDeliver(s, n);
      hide *;
    }
    if NothingBehind(s) {
      assert DeliveredBy(s, Gets(|AheadOf(s)|)) == Unread(s);
    }
    hide *;
  }

  // ----- Peeking before every get -----

  /** The slot holds a file without content: a read of it succeeds without data. */
  predicate BlankAt(files: Files, i: nat) {
    Name(i) in files && files[Name(i)] == []
  }

  /** The directory after `k` gets from slot `r` on have found data. */
  function Popped(files: Files, r: nat, k: nat): Files {
    if k == 0 then files else Removed(Popped(files, r, k - 1), r + k - 1)
  }

  lemma {:induction false} PoppedKeeps(files: Files, r: nat, k: nat, i: nat)
    requires r + k <= i <= INT_MAX
    ensures Name(i) in Popped(files, r, k) <==> Name(i) in files
    ensures Content(Popped(files, r, k), i) == Content(files, i)
    decreases k
  {
    if k > 0 {
      hide Name, Live, Content, Removed;
      PoppedKeeps(files, r, k - 1, i);
      SlotsKept(Popped(files, r, k - 1), r + k - 1, []);
      OthersKept(Popped(files, r, k - 1), r + k - 1, []);
    }
  }

  lemma {:induction false} AheadAt(files: Files, r: nat, hi: nat, k: nat)
    requires r <= hi && k <= |Ahead(files, r, hi)|
    ensures k < |Ahead(files, r, hi)| ==> Live(files, r + k) && files[Name(r + k)] == Ahead(files, r, hi)[k]
    ensures k == |Ahead(files, r, hi)| && r + k < hi ==> !Live(files, r + k)
    decreases k
  {
    if k > 0 {
      AheadAt(files, r + 1, hi, k - 1);
    }
  }

  /** After `k` items have been taken a read shows the next one, or succeeds without data at a file
      without content, or fails. */
  lemma ReadAfter(files: Files, r: nat, hi: nat, k: nat, ready: bool)
    requires r <= hi <= INT_MAX && LiveBelow(files, hi) && k <= |Ahead(files, r, hi)|
    ensures var o := Read(Popped(files, r, k), r + k, ready);
            && (k < |Ahead(files, r, hi)| ==> o == Item(Ahead(files, r, hi)[k]))
            && (k == |Ahead(files, r, hi)| ==> !o.Item? && (o.Blank? <==> BlankAt(files, r + k)))
  {
    AheadAt(files, r, hi, k);
    PoppedKeeps(files, r, k, r + k);
    LiveIsContent(files, r + k);
    hide Name, Ahead, Popped;
    assert k == |Ahead(files, r, hi)| ==> !Live(files, r + k);
    assert k == |Ahead(files, r, hi)| ==> Content(Popped(files, r, k), r + k) == [];
  }

  /** Those gets, as steps of the queue. */
  lemma {:induction false} GetsPop(s: Queue, k: nat)
    requires Inv(s) && k <= |AheadOf(s)|
    ensures var t := Run(s, Gets(k));
            && t.files == Popped(s.files, s.r, k) && t.r == s.r + k && t.w == s.w
            && Unread(s) == AheadOf(s)[..k] + Unread(t)
    decreases k
  {
    GetsRun(s, k);
    GetsDeliver(s, k);
    GetsEnabled(s, k);
    RunConserves(s, Gets(k));
    GetsComplete(s, k);
    hide *;
    assert Unread(s) + [] == Unread(s);
  }

  lemma {:induction false} GetsRun(s: Queue, k: nat)
    requires Inv(s) && k <= |AheadOf(s)|
    ensures Taken(s, k, Run(s, Gets(k)))
    decreases k
  {
    hide *;
    if k == 0 {
      NothingTaken(s);
    } else {
      GetsRun(s, k - 1);
      GetsSnoc(s, k - 1);
      OneMoreTaken(s, k - 1, Run(s, Gets(k - 1)));
    }
  }

  /** `t` is `s` after `k` items have been taken. */
  predicate Taken(s: Queue, k: nat, t: Queue) {
    t.files == Popped(s.files, s.r, k) && t.r == s.r + k && t.w == s.w
  }

  lemma NothingTaken(s: Queue)
    ensures Taken(s, 0, Run(s, Gets(0)))
  {
  }

  lemma OneMoreTaken(s: Queue, k: nat, t: Queue)
    requires Inv(s) && k < |AheadOf(s)| && Taken(s, k, t)
    ensures Taken(s, k + 1, Apply(t, Get))
  {
    hide Inv, AheadOf, Read, Removed;
    PoppedReads(s, k, t.ready);
  }

  lemma PoppedReads(s: Queue, k: nat, ready: bool)
    requires Inv(s) && k < |AheadOf(s)|
    ensures Popped(s.files, s.r, k + 1) == Removed(Popped(s.files, s.r, k), s.r + k)
    ensures Read(Popped(s.files, s.r, k), s.r + k, ready).Item?
  {
    ReadAfter(s.files, s.r, s.w, k, ready);
    hide Name, Removed, Read, Ahead;
  }

  lemma {:induction false} GetsSnoc(s: Queue, k: nat)
    ensures Run(s, Gets(k + 1)) == Apply(Run(s, Gets(k)), Get)
    decreases k
  {
    hide Apply;
    assert Gets(k + 1)[0] == Get && Gets(k + 1)[1..] == Gets(k);
    if k > 0 {
      assert Gets(k)[0] == Get && Gets(k)[1..] == Gets(k - 1);
      GetsSnoc(Apply(s, Get), k - 1);
    }
  }

  lemma {:induction false} GetsEnabled(s: Queue, k: nat)
    ensures AllEnabled(s, Gets(k))
    decreases k
  {
    hide Apply;
    if k > 0 {
      assert Gets(k)[0] == Get && Gets(k)[1..] == Gets(k - 1);
      GetsEnabled(Apply(s, Get), k - 1);
    }
  }

  lemma {:induction false} GetsComplete(s: Queue, k: nat)
    ensures CompletedBy(s, Gets(k)) == []
    decreases k
  {
    hide Apply;
    if k > 0 {
      assert Gets(k)[0] == Get && Gets(k)[1..] == Gets(k - 1);
      GetsComplete(Apply(s, Get), k - 1);
    }
  }

  // ----- Runs in which every put completes -----

  function Full(s: Queue): int {
    if s.pending.Some? then s.w - 1 else s.w
  }

  /** The items form one block that ends at the writer, and no other file exists. */
  ghost predicate Clean(s: Queue) {
    && Inv(s)
    && (s.pending.Some? ==> s.pending.value != [] && Name(s.w - 1) in s.files)
    && (forall i: nat :: i <= INT_MAX && Name(i) in s.files ==> Live(s.files, i) || i == Full(s) < s.w)
    && (forall i: nat, j: nat :: i < j < Full(s) && Live(s.files, i) ==> Live(s.files, j))
  }

  predicate CleanOp(s: Queue, op: Op) {
    match op
    case CreateFile(data) => data != []
    case RefuseFile => false
    case FailWrite => false
    case ShortWrite(n) => n > 0
    case Crash => s.pending.None?
    case _ => true
  }

  lemma CleanCreate(s: Queue, data: Bytes)
    requires Clean(s) && Enabled(s, CreateFile(data)) && data != []
    ensures Clean(Apply(s, CreateFile(data)))
  {
    CreateKeeps(s, data);
    LiveIsContent(s.files, s.w);
    SlotsKept(s.files, s.w, []);
    hide Inv, Live, Name;
  }

  lemma CleanWrite(s: Queue)
    requires Clean(s) && Enabled(s, WriteFile)
    ensures Clean(Apply(s, WriteFile))
  {
    WriteKeeps(s);
    var i := s.w - 1;
    LiveIsContent(s.files, i);
    var content := Overwrite(Content(s.files, i), s.pending.value);
    SlotsKept(s.files, i, content);
    assert content != [];
    assert Apply(s, WriteFile) == s.(files := s.files[Name(i) := content], ready := true, pending := None);
    hide Live, Name, Overwrite, Content, Apply, Written;
  }

  lemma CleanGet(s: Queue)
    requires Clean(s)
    ensures Clean(Apply(s, Get))
  {
    GetKeeps(s);
    if Live(s.files, s.r) {
      SlotsKept(s.files, s.r, []);
      assert !Live(Removed(s.files, s.r), s.r);
      hide Live, Name, Removed;
    }
  }

  lemma CleanReopen(s: Queue)
    requires Clean(s)
    ensures Clean(Apply(s, ReopenReader))
    ensures s.pending.None? ==> Clean(Apply(s, Crash))
  {
    ReopenKeeps(s);
    CrashKeeps(s);
    AfterNewestIs(s.files, s.w);
    hide Live, Name, Oldest, AfterNewest;
  }

  lemma CleanAhead(s: Queue)
    requires Clean(s) && (Unread(s) != [] ==> Live(s.files, s.r))
    ensures NothingBehind(s) && AheadOf(s) == Unread(s)
  {
    var d := StopSlot(s);
    AheadThenBehind(s.files, s.r, s.w);
    forall i: nat | d <= i <= INT_MAX
      ensures !Live(s.files, i)
    {
      if Live(s.files, i) {
        LiveIsContent(s.files, s.w - 1);
        ItemIsListed(s.files, 0, s.w, i);
      }
    }
    NothingBehindMeans(s);
  }

  /** The reader of a clean queue, initialised before the drain, is not held up: each get delivers
      the next item until nothing is left. */
  lemma DrainDelivers(s: Queue)
    requires Clean(s) && (Unread(s) != [] ==> Live(s.files, s.r))
    ensures DeliveredBy(s, Gets(|Unread(s)|)) == Unread(s)
  {
    CleanAhead(s);
    GetsDeliver(s, |Unread(s)|);
    hide AheadOf, Unread, DeliveredBy, Gets;
  }

  lemma StepKeepsClean(s: Queue, op: Op)
    requires Clean(s) && Enabled(s, op) && CleanOp(s, op)
    ensures Clean(Apply(s, op))
  {
    match op {
      case CreateFile(data) => CleanCreate(s, data);
      case WriteFile => CleanWrite(s);
      case ShortWrite(n) =>
        ShortWriteKeeps(s, n);
        CleanWrite(Shortened(s, n));
      case Get => CleanGet(s);
      case ReopenReader => CleanReopen(s);
      case Crash => CleanReopen(s);
      case Peek => FailPeekKeep(s);
    }
  }

  /** In a clean queue a read succeeds without data only while the put of that very slot is
      between creating and writing the file. */
  lemma BlankOnlyInFlight(s: Queue)
    requires Clean(s)
    ensures Read(s.files, s.r, s.ready).Blank? <==> s.pending.Some? && s.r == s.w - 1
  {
    LiveIsContent(s.files, s.r);
  }

  /** So the slot at which a reader stops holds an empty file only then. */
  lemma BlankStopOnlyInFlight(s: Queue)
    requires Clean(s)
    ensures BlankAt(s.files, StopSlot(s)) <==> s.pending.Some? && StopSlot(s) == s.w - 1
  {
    var d := StopSlot(s);
    AheadAt(s.files, s.r, s.w, |AheadOf(s)|);
    LiveIsContent(s.files, d);
    hide Ahead;
  }

  ghost predicate AllClean(s: Queue, ops: seq<Op>)
    decreases |ops|
  {
    ops == [] || (Enabled(s, ops[0]) && CleanOp(s, ops[0]) && AllClean(Apply(s, ops[0]), ops[1..]))
  }

  lemma {:induction false} RunKeepsClean(s: Queue, ops: seq<Op>)
    requires Clean(s) && AllClean(s, ops)
    ensures Clean(Run(s, ops)) && AllEnabled(s, ops)
    decreases |ops|
  {
    if ops != [] {
      StepKeepsClean(s, ops[0]);
      RunKeepsClean(Apply(s, ops[0]), ops[1..]);
    }
  }

  /** After any run of completed puts, gets, peeks and restarts, initialising the reader and
      draining delivers exactly the items put and not yet delivered. */
  lemma DrainAfterRun(ops: seq<Op>)
    requires AllClean(EMPTY, ops)
    ensures var t := Apply(Run(EMPTY, ops), ReopenReader);
            CompletedBy(EMPTY, ops) == DeliveredBy(EMPTY, ops) + DeliveredBy(t, Gets(|Unread(t)|))
  {
    RunKeepsClean(EMPTY, ops);
    Fifo(ops);
    hide Run, DeliveredBy, CompletedBy, AllClean, AllEnabled;
    ReopenedIsOnOldest(Run(EMPTY, ops));
    hide Apply, Unread, Clean, Live;
    DrainDelivers(Apply(Run(EMPTY, ops), ReopenReader));
  }

  lemma ReopenedIsOnOldest(s: Queue)
    requires Clean(s)
    ensures var t := Apply(s, ReopenReader);
            Clean(t) && Unread(t) == Unread(s) && (Unread(t) != [] ==> Live(t.files, t.r))
  {
    ReopenKeeps(s);
    CleanReopen(s);
    if Unread(s) != [] {
      OldestOfSome(s.files, 0, s.w);
    }
    hide Clean, Live, Oldest;
  }
}
