/** The 16-bit MODBUS checksum of the BLE frames (chekr_app/src/utils.c), bit by bit.

    `Register` specifies the nested loop of the source.  `Serial` is an independent form: a
    sixteen-cell shift register that consumes the message one bit at a time, least significant
    bit of each byte first.  The two are proved equal, and the error-detection laws are proved
    on the shift register and carried back to the bytes.
 */
module Crc16 {

  const POLYNOMIAL: bv16 := 0xA001
  const INITIAL_VALUE: bv16 := 0xFFFF

  // ----- The source's loops -----

  /** One round of the inner loop. */
  function Shift(crc: bv16): bv16 {
    if crc & 1 == 1 then (crc >> 1) ^ POLYNOMIAL else crc >> 1
  }

  function Shifts(crc: bv16, n: nat): bv16 {
    if n == 0 then crc else Shift(Shifts(crc, n - 1))
  }

  /** One round of the outer loop. */
  function Feed(crc: bv16, b: bv8): bv16 {
    Shifts(crc ^ (b as bv16), 8)
  }

  function Register(crc: bv16, data: seq<bv8>): bv16
    decreases |data|
  {
    if data == [] then crc else Register(Feed(crc, data[0]), data[1..])
  }

  /** Conversion to big-endian on the little-endian core the firmware runs on. */
  function SwapBytes(crc: bv16): bv16 {
    (crc << 8) | (crc >> 8)
  }

  function Checksum(data: seq<bv8>): bv16 {
    SwapBytes(Register(INITIAL_VALUE, data))
  }

  method Crc16Modbus(data: array<bv8>, length: nat) returns (crc: bv16)
    requires length <= data.Length && length < 0x1_0000
    ensures crc == Checksum(data[..length])
  {
    crc := INITIAL_VALUE;
    for i := 0 to length
      invariant crc == Register(INITIAL_VALUE, data[..i])
    {
      ghost var before := crc;
      crc := crc ^ (data[i] as bv16);
      for j := 0 to 8
        invariant crc == Shifts(before ^ (data[i] as bv16), j)
      {
        var lsb := crc & 1 == 1;
        crc := crc >> 1;
        if lsb {
          crc := crc ^ POLYNOMIAL;
        }
      }
      RegisterAppend(INITIAL_VALUE, data[..i], [data[i]]);
      assert data[..i + 1] == data[..i] + [data[i]];
    }
    crc := SwapBytes(crc);
  }

  lemma {:induction false} RegisterAppend(crc: bv16, a: seq<bv8>, b: seq<bv8>)
    ensures Register(crc, a + b) == Register(Register(crc, a), b)
    decreases |a|
  {
    if a == [] {
      assert a + b == b;
    } else {
      assert (a + b)[1..] == a[1..] + b;
      RegisterAppend(Feed(crc, a[0]), a[1..], b);
    }
  }

  // ----- The bit-serial shift register -----

  /** The cells of a sixteen-bit register, least significant first. */
  type Cells = w: seq<bool> | |w| == 16 witness Zeros(16)

  /** The cells fed back when a set bit leaves the register: bits 0, 13 and 15. */
  const TAPS: Cells := Zeros(16)[0 := true][13 := true][15 := true]

  function Xor(a: seq<bool>, b: seq<bool>): (r: seq<bool>)
    requires |a| == |b|
    ensures |r| == |a|
    ensures forall i :: 0 <= i < |r| ==> r[i] == (a[i] != b[i])
  {
    seq(|a|, i requires 0 <= i < |a| => a[i] != b[i])
  }

  function Zeros(n: nat): (r: seq<bool>)
    ensures |r| == n
    ensures forall i :: 0 <= i < n ==> !r[i]
  {
    seq(n, i => false)
  }

  function Step(w: Cells): Cells {
    if w[0] then Xor(w[1..] + [false], TAPS) else w[1..] + [false]
  }

  function Steps(w: Cells, n: nat): Cells
    decreases n
  {
    if n == 0 then w else Steps(Step(w), n - 1)
  }

  /** One bit of the message enters at the low end. */
  function Enter(w: Cells, bit: bool): Cells {
    Step(w[0 := w[0] != bit])
  }

  function Serial(w: Cells, bits: seq<bool>): Cells
    decreases |bits|
  {
    if bits == [] then w else Serial(Enter(w, bits[0]), bits[1..])
  }

  lemma {:induction false} SerialAppend(w: Cells, a: seq<bool>, b: seq<bool>)
    ensures Serial(w, a + b) == Serial(Serial(w, a), b)
    decreases |a|
  {
    if a == [] {
      assert a + b == b;
    } else {
      assert (a + b)[1..] == a[1..] + b;
      SerialAppend(Enter(w, a[0]), a[1..], b);
    }
  }

  lemma StepLinear(a: Cells, b: Cells)
    ensures Step(Xor(a, b)) == Xor(Step(a), Step(b))
  {
  }

  lemma {:induction false} SerialLinear(v: Cells, w: Cells, a: seq<bool>, b: seq<bool>)
    requires |a| == |b|
    ensures Serial(Xor(v, w), Xor(a, b)) == Xor(Serial(v, a), Serial(w, b))
    decreases |a|
  {
    if a != [] {
      var v0, w0 := v[0 := v[0] != a[0]], w[0 := w[0] != b[0]];
      assert Xor(v, w)[0 := Xor(v, w)[0] != Xor(a, b)[0]] == Xor(v0, w0);
      StepLinear(v0, w0);
      assert Xor(a, b)[1..] == Xor(a[1..], b[1..]);
      SerialLinear(Step(v0), Step(w0), a[1..], b[1..]);
    }
  }

  /** No information is lost by a step. */
  lemma StepInjective(v: Cells, w: Cells)
    requires Step(v) == Step(w)
    ensures v == w
  {
    assert Step(v)[15] == v[0] && Step(w)[15] == w[0];
    forall i | 0 < i < 16
      ensures v[i] == w[i]
    {
      assert Step(v)[i - 1] == (v[i] != (v[0] && TAPS[i - 1]));
      assert Step(w)[i - 1] == (w[i] != (w[0] && TAPS[i - 1]));
    }
  }

  lemma {:induction false} StepsInjective(w: Cells, n: nat)
    requires Steps(w, n) == Zeros(16)
    ensures w == Zeros(16)
    decreases n
  {
    if n > 0 {
      StepsInjective(Step(w), n - 1);
      assert Step(Zeros(16)) == Zeros(16);
      StepInjective(w, Zeros(16));
    }
  }

  lemma {:induction false} StepsOfZeros(n: nat)
    ensures Steps(Zeros(16), n) == Zeros(16)
  {
    if n > 0 {
      assert Step(Zeros(16)) == Zeros(16);
      StepsOfZeros(n - 1);
    }
  }

  /** Consuming at most sixteen bits is adding them to the register and shifting them out. */
  lemma {:induction false} SerialShiftsOut(w: Cells, bits: seq<bool>)
    requires |bits| <= 16
    ensures Serial(w, bits) == Steps(Xor(w, bits + Zeros(16 - |bits|)), |bits|)
    decreases |bits|
  {
    if bits == [] {
      assert Xor(w, bits + Zeros(16)) == w;
    } else {
      hide *;
      EnterFirst(w, bits);
      var entered, later := w[0 := w[0] != bits[0]], [false] + (bits[1..] + Zeros(16 - |bits|));
      StepLinear(entered, later);
      SerialShiftsOut(Enter(w, bits[0]), bits[1..]);
      HeadStep(w, Xor(w, bits + Zeros(16 - |bits|)), bits);
    }
  }

  /** The first bit enters, the others move up. */
  lemma EnterFirst(w: Cells, bits: seq<bool>)
    requires 0 < |bits| <= 16
    ensures var later := [false] + (bits[1..] + Zeros(16 - |bits|));
            && Xor(w, bits + Zeros(16 - |bits|)) == Xor(w[0 := w[0] != bits[0]], later)
            && Step(later) == bits[1..] + Zeros(16 - |bits[1..]|)
            && Enter(w, bits[0]) == Step(w[0 := w[0] != bits[0]])
  {
  }

  lemma HeadStep(w: Cells, sum: Cells, bits: seq<bool>)
    requires 0 < |bits| <= 16
    ensures Steps(sum, |bits|) == Steps(Step(sum), |bits[1..]|)
    ensures Serial(w, bits) == Serial(Enter(w, bits[0]), bits[1..])
  {
    hide Step, Enter;
  }

  /** Of up to sixteen bits exactly the register's own clear it, and fewer than sixteen only when
      the cells they do not reach are clear already. */
  lemma SixteenBitsClear(w: Cells, bits: seq<bool>)
    requires |bits| <= 16
    ensures Serial(w, bits) == Zeros(16) <==> w == bits + Zeros(16 - |bits|)
  {
    hide Serial, Step, Steps;
    var all := bits + Zeros(16 - |bits|);
    SerialShiftsOut(w, bits);
    if Serial(w, bits) == Zeros(16) {
      StepsInjective(Xor(w, all), |bits|);
      assert forall k :: 0 <= k < 16 ==> !Xor(w, all)[k];
    }
    if w == all {
      XorSelf(w);
      StepsOfZeros(|bits|);
    }
  }

  lemma {:induction false} SerialOfZeros(w: Cells, n: nat)
    ensures Serial(w, Zeros(n)) == Steps(w, n)
    decreases n
  {
    if n > 0 {
      assert w[0 := w[0] != false] == w;
      assert Zeros(n)[1..] == Zeros(n - 1);
      SerialOfZeros(Step(w), n - 1);
    }
  }

  // ----- Words and their cells -----

  function Odd(word: bv16): bool {
    word & 1 == 1
  }

  function Half(word: bv16): bv16 {
    word >> 1
  }

  function LowBits(word: bv16, n: nat): (bits: seq<bool>)
    ensures |bits| == n
    decreases n
  {
    if n == 0 then [] else [Odd(word)] + LowBits(Half(word), n - 1)
  }

  function CellsOf(word: bv16): Cells {
    LowBits(word, 16)
  }

  function ByteBits(b: bv8): (bits: seq<bool>)
    ensures |bits| == 8
  {
    LowBits(b as bv16, 8)
  }

  /** The message as the line sees it: byte by byte, least significant bit first. */
  function Bits(data: seq<bv8>): (bits: seq<bool>)
    ensures |bits| == 8 * |data|
  {
    if data == [] then [] else ByteBits(data[0]) + Bits(data[1..])
  }

  function Halves(word: bv16, n: nat): bv16
    decreases n
  {
    if n == 0 then word else Halves(Half(word), n - 1)
  }

  lemma {:induction false} HalvesAdd(word: bv16, m: nat, n: nat)
    ensures Halves(word, m + n) == Halves(Halves(word, m), n)
    decreases m
  {
    if m > 0 {
      hide Half;
      HalvesAdd(Half(word), m - 1, n);
    }
  }

  lemma HalvesEight(word: bv16)
    ensures Halves(word, 8) == word >> 8
  {
    HalvesAdd(word, 4, 4);
  }

  lemma HalvesAll(word: bv16)
    ensures Halves(word, 16) == 0
  {
    HalvesAdd(word, 8, 8);
    HalvesEight(word);
    HalvesEight(word >> 8);
  }

  lemma {:induction false} LowBitsOfZero(n: nat)
    ensures LowBits(0, n) == Zeros(n)
  {
    if n > 0 {
      LowBitsOfZero(n - 1);
    }
  }

  lemma {:induction false} LowBitsSplit(word: bv16, m: nat, n: nat)
    ensures LowBits(word, m + n) == LowBits(word, m) + LowBits(Halves(word, m), n)
    decreases m
  {
    if m > 0 {
      hide Odd, Half;
      LowBitsSplit(Half(word), m - 1, n);
    }
  }

  lemma OddAndHalfOfXor(a: bv16, b: bv16)
    ensures Half(a ^ b) == Half(a) ^ Half(b)
    ensures Odd(a ^ b) == (Odd(a) != Odd(b))
  {
  }

  lemma OddAndHalfDetermine(a: bv16, b: bv16)
    requires Half(a) == Half(b) && Odd(a) == Odd(b)
    ensures a == b
  {
  }

  lemma XorCons(x: bool, s: seq<bool>, y: bool, t: seq<bool>)
    requires |s| == |t|
    ensures Xor([x] + s, [y] + t) == [x != y] + Xor(s, t)
  {
  }

  lemma {:induction false} LowBitsXor(a: bv16, b: bv16, n: nat)
    ensures LowBits(a ^ b, n) == Xor(LowBits(a, n), LowBits(b, n))
    decreases n
  {
    if n > 0 {
      OddAndHalfOfXor(a, b);
      hide Odd, Half, Xor;
      LowBitsXor(Half(a), Half(b), n - 1);
      XorCons(Odd(a), LowBits(Half(a), n - 1), Odd(b), LowBits(Half(b), n - 1));
    }
  }

  lemma {:induction false} LowBitsInjective(a: bv16, b: bv16, n: nat)
    requires Halves(a, n) == 0 && Halves(b, n) == 0 && LowBits(a, n) == LowBits(b, n)
    ensures a == b
    decreases n
  {
    if n > 0 {
      hide Odd, Half;
      assert LowBits(a, n)[0] == Odd(a) && LowBits(b, n)[0] == Odd(b);
      assert LowBits(a, n)[1..] == LowBits(Half(a), n - 1);
      assert LowBits(b, n)[1..] == LowBits(Half(b), n - 1);
      LowBitsInjective(Half(a), Half(b), n - 1);
      OddAndHalfDetermine(a, b);
    }
  }

  lemma CellsOfHalf(word: bv16)
    ensures CellsOf(Half(word)) == CellsOf(word)[1..] + [false]
  {
    LowBitsSplit(word, 16, 1);
    HalvesAll(word);
    LowBitsOfZero(1);
    hide Odd, Half;
    assert LowBits(word, 17)[1..] == LowBits(Half(word), 16);
  }

  lemma NibbleBits(word: bv16)
    ensures LowBits(word, 4) == [Odd(word), Odd(Half(word)), Odd(Half(Half(word))), Odd(Half(Half(Half(word))))]
  {
    hide Odd, Half;
    assert LowBits(Half(Half(Half(word))), 1) == [Odd(Half(Half(Half(word))))];
    assert LowBits(Half(Half(word)), 2) == [Odd(Half(Half(word)))] + LowBits(Half(Half(Half(word))), 1);
  }

  lemma NibbleOfOne()
    ensures LowBits(0xA001, 4) == [true, false, false, false] && Halves(0xA001, 4) == 0x0A00
  {
    NibbleBits(0xA001);
  }

  lemma NibbleOfTen()
    ensures LowBits(0x000A, 4) == [false, true, false, true]
  {
    NibbleBits(0x000A);
  }

  lemma NibblesOfZero()
    ensures LowBits(0x0A00, 4) == Zeros(4) && Halves(0x0A00, 4) == 0x00A0
    ensures LowBits(0x00A0, 4) == Zeros(4) && Halves(0x00A0, 4) == 0x000A
  {
    NibbleBits(0x0A00);
    NibbleBits(0x00A0);
  }

  lemma CellsOfPolynomial()
    ensures CellsOf(POLYNOMIAL) == TAPS
  {
    NibbleOfOne();
    NibblesOfZero();
    NibbleOfTen();
    hide LowBits, Halves;
    LowBitsSplit(0xA001, 4, 12);
    LowBitsSplit(0x0A00, 4, 8);
    LowBitsSplit(0x00A0, 4, 4);
    assert CellsOf(POLYNOMIAL) == [true, false, false, false] + (Zeros(4) + (Zeros(4) + [false, true, false, true]));
  }

  lemma CellsOfShift(word: bv16)
    ensures CellsOf(Shift(word)) == Step(CellsOf(word))
  {
    CellsOfHalf(word);
    assert Shift(word) == if Odd(word) then Half(word) ^ POLYNOMIAL else Half(word);
    hide Shift, Odd, Half;
    LowBitsXor(Half(word), POLYNOMIAL, 16);
    CellsOfPolynomial();
  }

  lemma {:induction false} CellsOfShifts(word: bv16, n: nat)
    ensures CellsOf(Shifts(word, n)) == Steps(CellsOf(word), n)
  {
    if n > 0 {
      CellsOfShifts(word, n - 1);
      CellsOfShift(Shifts(word, n - 1));
      StepsSnoc(CellsOf(word), n - 1);
    }
  }

  lemma {:induction false} StepsSnoc(w: Cells, n: nat)
    ensures Steps(w, n + 1) == Step(Steps(w, n))
    decreases n
  {
    if n > 0 {
      StepsSnoc(Step(w), n - 1);
    }
  }

  lemma CellsOfByte(b: bv8)
    ensures CellsOf(b as bv16) == ByteBits(b) + Zeros(8)
  {
    LowBitsSplit(b as bv16, 8, 8);
    HalvesEight(b as bv16);
    LowBitsOfZero(8);
  }

  lemma CellsOfFeed(crc: bv16, b: bv8)
    ensures CellsOf(Feed(crc, b)) == Steps(Xor(CellsOf(crc), ByteBits(b) + Zeros(8)), 8)
  {
    hide Shift, Xor, LowBits, Steps;
    CellsOfByte(b);
    LowBitsXor(crc, b as bv16, 16);
    CellsOfShifts(crc ^ (b as bv16), 8);
  }

  /** The byte-wise register of the source and the bit-serial register agree on every message. */
  lemma {:induction false} SerialIsRegister(crc: bv16, data: seq<bv8>)
    ensures Serial(CellsOf(crc), Bits(data)) == CellsOf(Register(crc, data))
    decreases |data|
  {
    if data != [] {
      hide Feed, ByteBits, Xor, Steps;
      SerialAppend(CellsOf(crc), ByteBits(data[0]), Bits(data[1..]));
      SerialShiftsOut(CellsOf(crc), ByteBits(data[0]));
      CellsOfFeed(crc, data[0]);
      SerialIsRegister(Feed(crc, data[0]), data[1..]);
    }
  }

  // ----- Burst errors -----

  /** `a` and `b` have equal lengths and agree everywhere outside positions [p, p + n). */
  ghost predicate AgreeOutside<T>(a: seq<T>, b: seq<T>, p: nat, n: nat) {
    && |a| == |b|
    && forall k :: 0 <= k < |a| && !(p <= k < p + n) ==> a[k] == b[k]
  }

  lemma {:induction false} SerialOfNothing(bits: seq<bool>)
    requires |bits| <= 16 && Serial(Zeros(16), bits) == Zeros(16)
    ensures bits == Zeros(|bits|)
  {
    var word := bits + Zeros(16 - |bits|);
    SerialShiftsOut(Zeros(16), bits);
    assert Xor(Zeros(16), word) == word;
    StepsInjective(word, |bits|);
    assert bits == word[..|bits|];
  }

  /** A register started at zero ends at zero only on a difference without a set bit. */
  lemma {:induction false} BurstLeavesTrace(d: seq<bool>, p: nat)
    requires AgreeOutside(d, Zeros(|d|), p, 16) && Serial(Zeros(16), d) == Zeros(16)
    ensures d == Zeros(|d|)
  {
    if p < |d| {
      var q := if p + 16 < |d| then p + 16 else |d|;
      var burst := d[p..q];
      assert d == Zeros(p) + (burst + Zeros(|d| - q));
      SerialAppend(Zeros(16), Zeros(p), burst + Zeros(|d| - q));
      SerialOfZeros(Zeros(16), p);
      StepsOfZeros(p);
      SerialAppend(Zeros(16), burst, Zeros(|d| - q));
      SerialOfZeros(Serial(Zeros(16), burst), |d| - q);
      StepsInjective(Serial(Zeros(16), burst), |d| - q);
      SerialOfNothing(burst);
    }
  }

  lemma XorSelf(w: seq<bool>)
    ensures Xor(w, w) == Zeros(|w|)
  {
  }

  lemma BitBurstDetected(w: Cells, a: seq<bool>, b: seq<bool>, p: nat)
    requires AgreeOutside(a, b, p, 16) && a != b
    ensures Serial(w, a) != Serial(w, b)
  {
    var k :| 0 <= k < |a| && a[k] != b[k];
    assert Xor(a, b)[k];
    if Serial(w, a) == Serial(w, b) {
      SerialLinear(w, w, a, b);
      XorSelf(w);
      XorSelf(Serial(w, a));
      BurstLeavesTrace(Xor(a, b), p);
    }
  }

  lemma {:induction false} BitsInjective(a: seq<bv8>, b: seq<bv8>)
    requires Bits(a) == Bits(b)
    ensures a == b
    decreases |a|
  {
    if a != [] && b != [] {
      BitsSplit(a);
      BitsSplit(b);
      hide *;
      assert ByteBits(a[0]) == ByteBits(b[0]) && Bits(a[1..]) == Bits(b[1..]);
      ByteBitsInjective(a[0], b[0]);
      BitsInjective(a[1..], b[1..]);
      assert a == [a[0]] + a[1..] && b == [b[0]] + b[1..];
    }
  }

  lemma BitsSplit(data: seq<bv8>)
    requires data != []
    ensures Bits(data)[..8] == ByteBits(data[0]) && Bits(data)[8..] == Bits(data[1..])
  {
    hide ByteBits;
  }

  lemma ByteBitsInjective(a: bv8, b: bv8)
    requires ByteBits(a) == ByteBits(b)
    ensures a == b
  {
    HalvesEight(a as bv16);
    HalvesEight(b as bv16);
    hide Halves, LowBits;
    LowBitsInjective(a as bv16, b as bv16, 8);
    SameByte(a, b);
  }

  lemma SameByte(a: bv8, b: bv8)
    requires a as bv16 == b as bv16
    ensures a == b
  {
  }

  lemma SwapBytesInjective(a: bv16, b: bv16)
    requires SwapBytes(a) == SwapBytes(b)
    ensures a == b
  {
  }

  /** Two different messages of one length whose bits differ only inside sixteen consecutive
      positions have different checksums, whatever surrounds the difference. */
  lemma BurstDetected(a: seq<bv8>, b: seq<bv8>, p: nat)
    requires AgreeOutside(Bits(a), Bits(b), p, 16) && a != b
    ensures Checksum(a) != Checksum(b)
  {
    if Bits(a) == Bits(b) {
      BitsInjective(a, b);
    }
    BitBurstDetected(CellsOf(INITIAL_VALUE), Bits(a), Bits(b), p);
    SerialIsRegister(INITIAL_VALUE, a);
    SerialIsRegister(INITIAL_VALUE, b);
    if Checksum(a) == Checksum(b) {
      SwapBytesInjective(Register(INITIAL_VALUE, a), Register(INITIAL_VALUE, b));
    }
  }

  lemma {:induction false} BitsAt(data: seq<bv8>, k: nat)
    requires k < 8 * |data|
    ensures Bits(data)[k] == ByteBits(data[k / 8])[k % 8]
    decreases |data|
  {
    hide ByteBits;
    if k >= 8 {
      BitsAt(data[1..], k - 8);
    }
  }

  /** Any damage confined to two neighbouring bytes is detected. */
  lemma AdjacentBytesDetected(a: seq<bv8>, b: seq<bv8>, j: nat)
    requires AgreeOutside(a, b, j, 2) && a != b
    ensures Checksum(a) != Checksum(b)
  {
    forall k | 0 <= k < 8 * |a| && !(8 * j <= k < 8 * j + 16)
      ensures Bits(a)[k] == Bits(b)[k]
    {
      BitsAt(a, k);
      BitsAt(b, k);
    }
    BurstDetected(a, b, 8 * j);
  }

  // ----- Affinity -----

  function XorBytes(a: seq<bv8>, b: seq<bv8>): (r: seq<bv8>)
    requires |a| == |b|
    ensures |r| == |a|
  {
    seq(|a|, i requires 0 <= i < |a| => a[i] ^ b[i])
  }

  lemma ByteBitsXor(a: bv8, b: bv8)
    ensures ByteBits(a ^ b) == Xor(ByteBits(a), ByteBits(b))
  {
    LowBitsXor(a as bv16, b as bv16, 8);
  }

  lemma XorAppend(a: seq<bool>, b: seq<bool>, c: seq<bool>, d: seq<bool>)
    requires |a| == |c| && |b| == |d|
    ensures Xor(a + b, c + d) == Xor(a, c) + Xor(b, d)
  {
  }

  lemma {:induction false} BitsXor(a: seq<bv8>, b: seq<bv8>)
    requires |a| == |b|
    ensures Bits(XorBytes(a, b)) == Xor(Bits(a), Bits(b))
    decreases |a|
  {
    if a != [] {
      hide *;
      ByteBitsXor(a[0], b[0]);
      XorBytesHead(a, b);
      BitsXor(a[1..], b[1..]);
      BitsHead(a);
      BitsHead(b);
      BitsHead(XorBytes(a, b));
      XorAppend(ByteBits(a[0]), Bits(a[1..]), ByteBits(b[0]), Bits(b[1..]));
    } else {
      assert XorBytes(a, b) == [];
    }
  }

  lemma XorBytesHead(a: seq<bv8>, b: seq<bv8>)
    requires |a| == |b| > 0
    ensures XorBytes(a, b)[0] == a[0] ^ b[0] && XorBytes(a, b)[1..] == XorBytes(a[1..], b[1..])
  {
  }

  lemma BitsHead(data: seq<bv8>)
    requires data != []
    ensures Bits(data) == ByteBits(data[0]) + Bits(data[1..])
  {
    hide ByteBits;
  }

  lemma RegisterLinear(v: bv16, w: bv16, a: seq<bv8>, b: seq<bv8>)
    requires |a| == |b|
    ensures Register(v ^ w, XorBytes(a, b)) == Register(v, a) ^ Register(w, b)
  {
    hide Register, Serial, XorBytes, Xor, LowBits, Bits;
    var sum := Register(v, a) ^ Register(w, b);
    assert CellsOf(Register(v ^ w, XorBytes(a, b))) == CellsOf(sum) by {
      SerialIsRegister(v, a);
      SerialIsRegister(w, b);
      SerialIsRegister(v ^ w, XorBytes(a, b));
      BitsXor(a, b);
      LowBitsXor(v, w, 16);
      SerialLinear(CellsOf(v), CellsOf(w), Bits(a), Bits(b));
      LowBitsXor(Register(v, a), Register(w, b), 16);
    }
    CellsDetermine(Register(v ^ w, XorBytes(a, b)), sum);
  }

  lemma CellsDetermine(a: bv16, b: bv16)
    requires CellsOf(a) == CellsOf(b)
    ensures a == b
  {
    HalvesAll(a);
    HalvesAll(b);
    LowBitsInjective(a, b, 16);
  }

  lemma XorTwice(a: bv16)
    ensures (a ^ a) ^ a == a
  {
  }

  lemma SwapBytesXor(a: bv16, b: bv16, c: bv16)
    ensures SwapBytes((a ^ b) ^ c) == (SwapBytes(a) ^ SwapBytes(b)) ^ SwapBytes(c)
  {
  }

  /** The checksum of an odd combination of equally long messages is the combination of checksums. */
  lemma ChecksumAffine(a: seq<bv8>, b: seq<bv8>, c: seq<bv8>)
    requires |a| == |b| == |c|
    ensures Checksum(XorBytes(XorBytes(a, b), c)) == (Checksum(a) ^ Checksum(b)) ^ Checksum(c)
  {
    var v := INITIAL_VALUE;
    RegisterLinear(v, v, a, b);
    RegisterLinear(v ^ v, v, XorBytes(a, b), c);
    XorTwice(v);
    SwapBytesXor(Register(v, a), Register(v, b), Register(v, c));
  }

  // ----- The trailer -----

  function Low(word: bv16): bv8 {
    (word & 0xFF) as bv8
  }

  function High(word: bv16): bv8 {
    (word >> 8) as bv8
  }

  lemma CellsOfBytes(word: bv16)
    ensures CellsOf(word) == Bits([Low(word), High(word)])
  {
    LowBitsSplit(word, 8, 8);
    HalvesEight(word);
    assert Bits([High(word)]) == ByteBits(High(word));
    LowByteBits(word);
  }

  lemma LowByteBits(word: bv16)
    ensures LowBits(word & 0xFF, 8) == LowBits(word, 8)
  {
    LowBitsSplit(word & 0xFF, 4, 4);
    LowBitsSplit(word, 4, 4);
    NibbleOfLowByte(word);
    NibbleOfLowByte(word >> 4);
    assert (word & 0xFF) >> 4 == (word >> 4) & 0x0F;
  }

  lemma NibbleOfLowByte(word: bv16)
    ensures LowBits(word & 0xFF, 4) == LowBits(word, 4) == LowBits(word & 0x0F, 4)
  {
    NibbleBits(word & 0xFF);
    NibbleBits(word & 0x0F);
    NibbleBits(word);
    SameNibble(word, 0xFF);
    SameNibble(word, 0x0F);
  }

  lemma SameNibble(word: bv16, mask: bv16)
    requires mask == 0xFF || mask == 0x0F
    ensures Odd(word & mask) == Odd(word)
    ensures Odd(Half(word & mask)) == Odd(Half(word))
    ensures Odd(Half(Half(word & mask))) == Odd(Half(Half(word)))
    ensures Odd(Half(Half(Half(word & mask)))) == Odd(Half(Half(Half(word))))
  {
  }

  /** Two further bytes clear the register exactly when they are its own value, low byte first:
      the order MODBUS over serial line (section 6.2.2) puts on the wire. */
  lemma TrailerClears(crc: bv16, t: seq<bv8>)
    requires |t| == 2
    ensures Register(crc, t) == 0 <==> t == [Low(crc), High(crc)]
  {
    hide *;
    var own := [Low(crc), High(crc)];
    SerialIsRegister(crc, t);
    SixteenBitsClear(CellsOf(crc), Bits(t));
    AllBits(Bits(t));
    CellsOfBytes(crc);
    ZeroCells(Register(crc, t));
    if Bits(t) == Bits(own) {
      BitsInjective(t, own);
    }
  }

  lemma AllBits(bits: seq<bool>)
    requires |bits| == 16
    ensures bits + Zeros(16 - |bits|) == bits
  {
  }

  lemma ZeroCells(word: bv16)
    ensures CellsOf(word) == Zeros(16) <==> word == 0
  {
    LowBitsOfZero(16);
    hide LowBits;
    if CellsOf(word) == Zeros(16) {
      CellsDetermine(word, 0);
    }
  }

  /** A message followed by its register, low byte first, leaves the register at zero; no other
      two bytes do. */
  lemma Residue(data: seq<bv8>, t: seq<bv8>)
    requires |t| == 2
    ensures Register(INITIAL_VALUE, data + t) == 0
       <==> t == [Low(Register(INITIAL_VALUE, data)), High(Register(INITIAL_VALUE, data))]
  {
    RegisterAppend(INITIAL_VALUE, data, t);
    TrailerClears(Register(INITIAL_VALUE, data), t);
  }

  /** The two bytes of the returned value as a packed frame stores them, low byte first. */
  function Stored(crc: bv16): seq<bv8> {
    [Low(crc), High(crc)]
  }

  /** The source swaps the value before storing it, so its frames carry the trailer high byte
      first.  Such a frame has residue zero exactly when the two bytes happen to be equal. */
  lemma ResidueOfStoredFrame(data: seq<bv8>)
    ensures Register(INITIAL_VALUE, data + Stored(Checksum(data))) == 0
       <==> Low(Checksum(data)) == High(Checksum(data))
  {
    var r := Register(INITIAL_VALUE, data);
    SwapExchanges(r);
    Residue(data, Stored(Checksum(data)));
  }

  lemma SwapExchanges(word: bv16)
    ensures Low(SwapBytes(word)) == High(word) && High(SwapBytes(word)) == Low(word)
  {
  }

  // ----- The receiver's check (chekr_app/src/ble/src/chekr.c) -----

  function LittleEndian(t: seq<bv8>): bv16
    requires |t| == 2
  {
    Join(t[0], t[1])
  }

  const START_BYTE: bv8 := 0x01
  const REQUEST: bv8 := 0xF1
  const MAX_COMMAND_LEN := 128

  /** The header checks: start byte, length, frame type.  The work handler copies the command into a
      zeroed buffer, so a frame too short to have a type is refused by the last of them. */
  predicate HeaderAccepted(frame: seq<bv8>) {
    && 3 <= |frame| <= MAX_COMMAND_LEN
    && frame[0] == START_BYTE
    && frame[1] as int == |frame|
    && frame[2] == REQUEST
  }

  /** The work handler frees the queued command before it reads the checksum out of it, so `read` is
      whatever the freed block holds where the trailer was. */
  predicate Accepts(frame: seq<bv8>, read: seq<bv8>)
    requires |read| == 2
  {
    HeaderAccepted(frame) && Checksum(frame[..|frame| - 2]) == LittleEndian(read)
  }

  lemma LittleEndianStored(t: seq<bv8>, crc: bv16)
    requires |t| == 2
    ensures LittleEndian(t) == crc <==> t == Stored(crc)
  {
    hide Low, High, Join;
    JoinThenSplit(t[0], t[1]);
    SplitThenJoin(crc);
  }

  function Join(lo: bv8, hi: bv8): bv16 {
    (lo as bv16) | ((hi as bv16) << 8)
  }

  lemma JoinThenSplit(lo: bv8, hi: bv8)
    ensures Low(Join(lo, hi)) == lo && High(Join(lo, hi)) == hi
  {
  }

  lemma SplitThenJoin(crc: bv16)
    ensures Join(Low(crc), High(crc)) == crc
  {
  }

  /** A request is accepted if and only if it has 3 to 128 bytes, starts with 0x01, its own length and
      0xF1, and the word read is the checksum of all but its last two bytes, low byte first. */
  lemma AcceptedIff(frame: seq<bv8>, read: seq<bv8>)
    requires |read| == 2
    ensures Accepts(frame, read) <==>
              && 3 <= |frame| <= 128 && frame[0] == 0x01 && frame[1] as int == |frame| && frame[2] == 0xF1
              && read == Stored(Checksum(frame[..|frame| - 2]))
  {
    hide LittleEndian, Stored, Checksum;
    if |frame| >= 2 {
      LittleEndianStored(read, Checksum(frame[..|frame| - 2]));
    }
  }

  /** With a correct header a frame is accepted exactly when the word read is the checksum its
      sender stores, whatever trailer the frame carries.  So the decision is right, that is, the
      frame is accepted if and only if its trailer is correct, exactly when the word read is the
      trailer, or both are wrong. */
  lemma ReceiverCheck(data: seq<bv8>, t: seq<bv8>, read: seq<bv8>)
    requires |t| == |read| == 2 && HeaderAccepted(data + t)
    ensures Accepts(data + t, read) <==> read == Stored(Checksum(data))
    ensures (Accepts(data + t, read) <==> t == Stored(Checksum(data)))
       <==> (read == t || (read != Stored(Checksum(data)) && t != Stored(Checksum(data))))
  {
    hide HeaderAccepted, LittleEndian, Stored, Checksum;
    assert (data + t)[..|data + t| - 2] == data;
    LittleEndianStored(read, Checksum(data));
  }

  /** If the word read is not the trailer just received but always the same, then of two correct
      frames that differ only inside two adjacent bytes of the message one is refused. */
  lemma StaleWordRefuses(a: seq<bv8>, b: seq<bv8>, j: nat, read: seq<bv8>)
    requires |read| == 2 && AgreeOutside(a, b, j, 2) && a != b
    requires HeaderAccepted(a + Stored(Checksum(a))) && HeaderAccepted(b + Stored(Checksum(b)))
    ensures !Accepts(a + Stored(Checksum(a)), read) || !Accepts(b + Stored(Checksum(b)), read)
  {
    hide HeaderAccepted, Accepts, Checksum;
    AdjacentBytesDetected(a, b, j);
    ReceiverCheck(a, Stored(Checksum(a)), read);
    ReceiverCheck(b, Stored(Checksum(b)), read);
    SplitThenJoin(Checksum(a));
    SplitThenJoin(Checksum(b));
  }

  /** The request for the device's address. */
  const ADDRESS_REQUEST: seq<bv8> := [START_BYTE, 0x07, REQUEST, 0x01, 0x00]

  lemma FeedIs(crc: bv16, b: bv8, next: bv16)
    requires Shift(Shift(Shift(Shift(Shift(Shift(Shift(Shift(crc ^ (b as bv16))))))))) == next
    ensures Feed(crc, b) == next
  {
    hide Shift;
    var x := crc ^ (b as bv16);
    assert Shifts(x, 1) == Shift(Shifts(x, 0));
    assert Shifts(x, 2) == Shift(Shifts(x, 1));
    assert Shifts(x, 4) == Shift(Shift(Shifts(x, 2)));
    assert Shifts(x, 6) == Shift(Shift(Shifts(x, 4)));
    assert Shifts(x, 8) == Shift(Shift(Shifts(x, 6)));
  }

  lemma AddressChecksum()
    ensures Stored(Checksum(ADDRESS_REQUEST)) == [0xD7, 0x48]
  {
    var d := ADDRESS_REQUEST;
    FeedIs(INITIAL_VALUE, 0x01, 0x807E);
    FeedIs(0x807E, 0x07, 0xE241);
    FeedIs(0xE241, 0xF1, 0xB4E3);
    FeedIs(0xB4E3, 0x01, 0x4934);
    FeedIs(0x4934, 0x00, 0xD748);
    hide Feed;
    RegisterOfFive(INITIAL_VALUE, d);
    assert SwapBytes(0xD748) == 0x48D7;
    assert Low(0x48D7) == 0xD7 && High(0x48D7) == 0x48;
  }

  lemma RegisterOfFive(crc: bv16, d: seq<bv8>)
    requires |d| == 5
    ensures Register(crc, d) == Feed(Feed(Feed(Feed(Feed(crc, d[0]), d[1]), d[2]), d[3]), d[4])
  {
    hide *;
    var c1 := Feed(crc, d[0]);
    var c2 := Feed(c1, d[1]);
    var c3 := Feed(c2, d[2]);
    var c4 := Feed(c3, d[3]);
    RegisterHead(crc, d);
    RegisterHead(c1, d[1..]);
    RegisterHead(c2, d[2..]);
    RegisterHead(c3, d[3..]);
    RegisterHead(c4, d[4..]);
    RegisterOfNone(Feed(c4, d[4]));
    assert d[1..][1..] == d[2..] && d[2..][1..] == d[3..] && d[3..][1..] == d[4..] && d[4..][1..] == [];
  }

  lemma RegisterHead(crc: bv16, d: seq<bv8>)
    requires d != []
    ensures Register(crc, d) == Register(Feed(crc, d[0]), d[1..])
  {
    hide Feed;
  }

  lemma RegisterOfNone(crc: bv16)
    ensures Register(crc, []) == crc
  {
  }

  /** A correct request is refused when the freed block reads as zero there, and one that arrived
      with a damaged trailer is accepted when the block holds the right one, say of an earlier
      request. */
  lemma MisreadWord()
    ensures !Accepts(ADDRESS_REQUEST + Stored(Checksum(ADDRESS_REQUEST)), [0x00, 0x00])
    ensures Accepts(ADDRESS_REQUEST + [0x00, 0x00], Stored(Checksum(ADDRESS_REQUEST)))
    ensures Stored(Checksum(ADDRESS_REQUEST)) != [0x00, 0x00]
  {
    AddressChecksum();
    hide Checksum, LittleEndian;
    ReceiverCheck(ADDRESS_REQUEST, [0xD7, 0x48], [0x00, 0x00]);
    ReceiverCheck(ADDRESS_REQUEST, [0x00, 0x00], [0xD7, 0x48]);
  }
}
