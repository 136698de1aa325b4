/** The byte budget of a message: how many entries of a queue an array emits before the next one
    does not fit (c_modules/json/src/d1_json.c, c_modules/modem/src/gps.c). */
module Budget {
  import opened Json

  const CONFIG_MAX_MQTT_MSG_SIZE: int := 1980
  const PADDING: int := 10
  const ENOMEM: int := 12
  const EINVAL: int := 22

  /** C compares the int16_t budget with a size_t length, so as unsigned 32-bit numbers. */
  predicate Below(remaining: int, length: nat) {
    (if remaining < 0 then remaining + 0x1_0000_0000 else remaining) < length
  }

  /** Within 16 bits that is the usual comparison for a budget that is not negative, and never true
      of a negative one: it passes for a huge budget. */
  lemma BelowMeans(remaining: int, length: nat)
    requires -0x8000 <= remaining < 0x8000 && length < 0x8000_0000
    ensures Below(remaining, length) <==> 0 <= remaining < length
  {
  }

  /** How many entries are emitted one after the other until one does not fit. */
  function Fit(entries: seq<Json>, budget: int): (k: nat)
    ensures k <= |entries|
    decreases |entries|
  {
    if entries == [] || Below(budget, Width(entries[0])) then 0
    else 1 + Fit(entries[1..], budget - Width(entries[0]))
  }

  lemma FitUnfold(entries: seq<Json>, budget: int)
    requires entries != []
    ensures Fit(entries, budget) == if Below(budget, Width(entries[0])) then 0
                                    else 1 + Fit(entries[1..], budget - Width(entries[0]))
  {
    hide Below, Width;
  }

  /** With a non-negative budget that is the longest prefix whose widths sum to at most it, and the
      budget left is not negative. */
  lemma {:induction false} FitIsLongest(entries: seq<Json>, budget: int)
    requires budget >= 0
    ensures forall j :: 0 <= j <= |entries| ==> (ItemsWidth(entries[..j]) <= budget <==> j <= Fit(entries, budget))
    decreases |entries|
  {
    hide Width;
    forall j | 0 <= j <= |entries|
      ensures ItemsWidth(entries[..j]) <= budget <==> j <= Fit(entries, budget)
    {
      if j > 0 {
        var w, rest := Width(entries[0]), entries[1..];
        assert entries[..j][1..] == rest[..j - 1] && entries[..j][0] == entries[0];
        assert ItemsWidth(entries[..j]) == w + ItemsWidth(rest[..j - 1]);
        if w <= budget {
          FitIsLongest(rest, budget - w);
        }
      }
    }
  }

  /** The length of the longest prefix of `items` whose widths sum to at most `budget`, looked for
      from `j` downwards. */
  function LongestUpTo(items: seq<Json>, budget: int, j: nat): (k: nat)
    requires j <= |items|
    ensures k <= j
    decreases j
  {
    if j == 0 || ItemsWidth(items[..j]) <= budget then j else LongestUpTo(items, budget, j - 1)
  }

  function Longest(items: seq<Json>, budget: int): (k: nat)
    ensures k <= |items|
  {
    LongestUpTo(items, budget, |items|)
  }

  /** Emitting entry after entry finds the same prefix as looking for the longest one. */
  lemma FitIsLongestPrefix(items: seq<Json>, budget: int)
    requires budget >= 0
    ensures Fit(items, budget) == Longest(items, budget)
  {
    FitFromAbove(items, budget, |items|);
  }

  lemma {:induction false} FitFromAbove(items: seq<Json>, budget: int, j: nat)
    requires budget >= 0 && Fit(items, budget) <= j <= |items|
    ensures LongestUpTo(items, budget, j) == Fit(items, budget)
    decreases j
  {
    hide ItemsWidth, Fit;
    FitIsLongest(items, budget);
    if j > Fit(items, budget) {
      FitFromAbove(items, budget, j - 1);
    }
  }

  /** What one array emission does to its queue and the budget. */
  datatype Emission<T> = Emission(taken: seq<T>, left: seq<T>, added: bool, remaining: int, ret: int)

  function ArrayField(name: string, e: bool, items: seq<Json>): seq<Field> {
    if e then [Field(name, Array(items))] else []
  }
}
