/** The constant data of the EAN-13 symbology: which number set each
    left-half digit uses, keyed by the leading digit, and the seven-module
    pattern of every digit in number sets A, B and C. */
module Tables {

  /** Number-set indices, as they index the first dimension of PixelsPattern. */
  const SetA := 0
  const SetB := 1
  const SetC := 2

  /** Row = leading digit 0..9, column = left-half position 1..6 minus one;
      0 selects number set A, 1 selects number set B. */
  const Ean13Pattern: seq<seq<int>> := [
    [0, 0, 0, 0, 0, 0],   // 0
    [0, 0, 1, 0, 1, 1],   // 1
    [0, 0, 1, 1, 0, 1],   // 2
    [0, 0, 1, 1, 1, 0],   // 3
    [0, 1, 0, 0, 1, 1],   // 4
    [0, 1, 1, 0, 0, 1],   // 5
    [0, 1, 1, 1, 0, 0],   // 6
    [0, 1, 0, 1, 0, 1],   // 7
    [0, 1, 0, 1, 1, 0],   // 8
    [0, 1, 1, 0, 1, 0]    // 9
  ]

  /** Indexed by number set (A = 0, B = 1, C = 2), then digit, then module. */
  const PixelsPattern: seq<seq<seq<int>>> := [
    [ // number set A
      [0, 0, 0, 1, 1, 0, 1],    // 0
      [0, 0, 1, 1, 0, 0, 1],    // 1
      [0, 0, 1, 0, 0, 1, 1],    // 2
      [0, 1, 1, 1, 1, 0, 1],    // 3
      [0, 1, 0, 0, 0, 1, 1],    // 4
      [0, 1, 1, 0, 0, 0, 1],    // 5
      [0, 1, 0, 1, 1, 1, 1],    // 6
      [0, 1, 1, 1, 0, 1, 1],    // 7
      [0, 1, 1, 0, 1, 1, 1],    // 8
      [0, 0, 0, 1, 0, 1, 1]     // 9
    ],
    [ // number set B
      [0, 1, 0, 0, 1, 1, 1],    // 0
      [0, 1, 1, 0, 0, 1, 1],    // 1
      [0, 0, 1, 1, 0, 1, 1],    // 2
      [0, 1, 0, 0, 0, 0, 1],    // 3
      [0, 0, 1, 1, 1, 0, 1],    // 4
      [0, 1, 1, 1, 0, 0, 1],    // 5
      [0, 0, 0, 0, 1, 0, 1],    // 6
      [0, 0, 1, 0, 0, 0, 1],    // 7
      [0, 0, 0, 1, 0, 0, 1],    // 8
      [0, 0, 1, 0, 1, 1, 1]     // 9
    ],
    [ // number set C
      [1, 1, 1, 0, 0, 1, 0],    // 0
      [1, 1, 0, 0, 1, 1, 0],    // 1
      [1, 1, 0, 1, 1, 0, 0],    // 2
      [1, 0, 0, 0, 0, 1, 0],    // 3
      [1, 0, 1, 1, 1, 0, 0],    // 4
      [1, 0, 0, 1, 1, 1, 0],    // 5
      [1, 0, 1, 0, 0, 0, 0],    // 6
      [1, 0, 0, 0, 1, 0, 0],    // 7
      [1, 0, 0, 1, 0, 0, 0],    // 8
      [1, 1, 1, 0, 1, 0, 0]     // 9
    ]
  ]

  predicate IsBit(x: int) { x == 0 || x == 1 }

  /** Every row of Ean13Pattern has six entries, each 0 or 1, and the first
      entry of every row is 0. */
  lemma ParityTableShape(first: int)
    requires 0 <= first < 10
    ensures |Ean13Pattern| == 10 && |Ean13Pattern[first]| == 6
    ensures forall k :: 0 <= k < 6 ==> IsBit(Ean13Pattern[first][k])
    ensures Ean13Pattern[first][0] == SetA
  {
  }

  lemma PixelsRowShape(numberSet: int, digit: int)
    requires 0 <= numberSet < 3 && 0 <= digit < 10
    ensures |PixelsPattern| == 3 && |PixelsPattern[numberSet]| == 10
    ensures |PixelsPattern[numberSet][digit]| == 7
    ensures forall i :: 0 <= i < 7 ==> IsBit(PixelsPattern[numberSet][digit][i])
  {
  }

  /** The number set (A or B) of the left-half digit at position k (1..6)
      when the leading digit is `first`. */
  function Parity(first: int, k: int): (s: int)
    requires 0 <= first < 10 && 1 <= k <= 6
    ensures s == SetA || s == SetB
    ensures k == 1 ==> s == SetA
  {
    ParityTableShape(first);
    Ean13Pattern[first][k - 1]
  }

  /** The seven modules of `digit` in number set `numberSet`. */
  function Pattern(numberSet: int, digit: int): (p: seq<int>)
    requires 0 <= numberSet < 3 && 0 <= digit < 10
    ensures |p| == 7
    ensures forall i :: 0 <= i < 7 ==> IsBit(p[i])
  {
    PixelsRowShape(numberSet, digit);
    PixelsPattern[numberSet][digit]
  }

  /** Each set-C pattern is the module-by-module complement of the set-A
      pattern of the same digit. */
  lemma SetCComplementsSetA(digit: int)
    requires 0 <= digit < 10
    ensures forall i :: 0 <= i < 7 ==> Pattern(SetC, digit)[i] == 1 - Pattern(SetA, digit)[i]
  {
  }

  /** Each set-B pattern is the set-C pattern of the same digit read
      backwards. */
  lemma SetBReversesSetC(digit: int)
    requires 0 <= digit < 10
    ensures forall i :: 0 <= i < 7 ==> Pattern(SetB, digit)[i] == Pattern(SetC, digit)[6 - i]
  {
  }

  /** Set-A and set-B patterns start with a space and end with a bar;
      set-C patterns start with a bar and end with a space. */
  lemma PatternEdges(numberSet: int, digit: int)
    requires 0 <= numberSet < 3 && 0 <= digit < 10
    ensures Pattern(numberSet, digit)[0] == (if numberSet == SetC then 1 else 0)
    ensures Pattern(numberSet, digit)[6] == (if numberSet == SetC then 0 else 1)
  {
  }
}
