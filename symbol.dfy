/** The 95-module EAN-13 symbol as a value: the specification that the
    array-filling assembler is proved against, and the layout facts about it. */
module Symbol {
  import opened Tables

  predicate IsDigitChar(c: char) { '0' <= c <= '9' }

  /** What the assembler relies on without checking: thirteen characters,
      each a decimal digit. */
  predicate ValidCode(code: seq<char>)
  {
    |code| == 13 && forall i :: 0 <= i < |code| ==> IsDigitChar(code[i])
  }

  /** The character arithmetic `c - '0'`. */
  function DigitValue(c: char): (d: int)
    requires IsDigitChar(c)
    ensures 0 <= d < 10
  {
    c as int - '0' as int
  }

  const SymbolWidth := 95
  const StartGuard: seq<int> := [1, 0, 1]
  const CentreGuard: seq<int> := [0, 1, 0, 1, 0]
  const StopGuard: seq<int> := [1, 0, 1]

  /** Number set of the left-half digit at position k (1..6): chosen by the
      leading digit and the position alone. */
  function LeftSet(code: seq<char>, k: int): (s: int)
    requires ValidCode(code) && 1 <= k <= 6
    ensures s == SetA || s == SetB
  {
    Parity(DigitValue(code[0]), k)
  }

  /** The seven modules of the left-half digit at position k (1..6). */
  function LeftDigitModules(code: seq<char>, k: int): (p: seq<int>)
    requires ValidCode(code) && 1 <= k <= 6
    ensures |p| == 7
  {
    Pattern(LeftSet(code, k), DigitValue(code[k]))
  }

  /** The seven modules of the right-half digit at position k (7..12). */
  function RightDigitModules(code: seq<char>, k: int): (p: seq<int>)
    requires ValidCode(code) && 7 <= k <= 12
    ensures |p| == 7
  {
    Pattern(SetC, DigitValue(code[k]))
  }

  /** The modules of the first n left-half digits (positions 1..n). */
  function LeftHalf(code: seq<char>, n: int): (r: seq<int>)
    requires ValidCode(code) && 0 <= n <= 6
    ensures |r| == 7 * n
    ensures forall j :: 0 <= j < |r| ==> IsBit(r[j])
  {
    if n == 0 then [] else LeftHalf(code, n - 1) + LeftDigitModules(code, n)
  }

  /** The modules of the first n right-half digits (positions 7..6+n). */
  function RightHalf(code: seq<char>, n: int): (r: seq<int>)
    requires ValidCode(code) && 0 <= n <= 6
    ensures |r| == 7 * n
    ensures forall j :: 0 <= j < |r| ==> IsBit(r[j])
  {
    if n == 0 then [] else RightHalf(code, n - 1) + RightDigitModules(code, 6 + n)
  }

  /** The whole symbol: start guard, six left digits, centre guard, six
      right digits, stop guard. */
  function Encode(code: seq<char>): (r: seq<int>)
    requires ValidCode(code)
    ensures |r| == SymbolWidth
    ensures forall j :: 0 <= j < |r| ==> IsBit(r[j])
  {
    StartGuard + LeftHalf(code, 6) + CentreGuard + RightHalf(code, 6) + StopGuard
  }

  lemma {:induction false} LeftHalfAt(code: seq<char>, n: int, k: int, i: int)
    requires ValidCode(code) && 1 <= k <= n <= 6 && 0 <= i < 7
    ensures LeftHalf(code, n)[7 * (k - 1) + i] == LeftDigitModules(code, k)[i]
  {
    var prev := LeftHalf(code, n - 1);
    assert LeftHalf(code, n) == prev + LeftDigitModules(code, n);
    if k < n {
      LeftHalfAt(code, n - 1, k, i);
      assert 7 * (k - 1) + i < |prev|;
    } else {
      assert 7 * (k - 1) + i == |prev| + i;
    }
  }

  lemma {:induction false} RightHalfAt(code: seq<char>, n: int, k: int, i: int)
    requires ValidCode(code) && 7 <= k <= 6 + n <= 12 && 0 <= i < 7
    ensures RightHalf(code, n)[7 * (k - 7) + i] == RightDigitModules(code, k)[i]
  {
    var prev := RightHalf(code, n - 1);
    assert RightHalf(code, n) == prev + RightDigitModules(code, 6 + n);
    if k < 6 + n {
      RightHalfAt(code, n - 1, k, i);
      assert 7 * (k - 7) + i < |prev|;
    } else {
      assert 7 * (k - 7) + i == |prev| + i;
    }
  }

  /** Modules 0..2 and 92..94 are the bar-space-bar guards and modules
      45..49 the space-bar-space-bar-space centre guard, whatever the code. */
  lemma Guards(code: seq<char>)
    requires ValidCode(code)
    ensures Encode(code)[..3] == [1, 0, 1]
    ensures Encode(code)[45..50] == [0, 1, 0, 1, 0]
    ensures Encode(code)[92..] == [1, 0, 1]
  {
  }

  /** Module 3 + 7(k-1) + i belongs to left digit k, in the number set that
      the leading digit picks for position k. */
  lemma LeftModuleAt(code: seq<char>, k: int, i: int)
    requires ValidCode(code) && 1 <= k <= 6 && 0 <= i < 7
    ensures Encode(code)[3 + 7 * (k - 1) + i]
         == Pattern(Parity(DigitValue(code[0]), k), DigitValue(code[k]))[i]
  {
    LeftHalfAt(code, 6, k, i);
  }

  /** Module 50 + 7(k-7) + i belongs to right digit k, always in set C. */
  lemma RightModuleAt(code: seq<char>, k: int, i: int)
    requires ValidCode(code) && 7 <= k <= 12 && 0 <= i < 7
    ensures Encode(code)[50 + 7 * (k - 7) + i] == Pattern(SetC, DigitValue(code[k]))[i]
  {
    RightHalfAt(code, 6, k, i);
  }

  /** The seven-module block of left digit k. */
  lemma LeftBlock(code: seq<char>, k: int)
    requires ValidCode(code) && 1 <= k <= 6
    ensures Encode(code)[3 + 7 * (k - 1) .. 3 + 7 * k]
         == Pattern(Parity(DigitValue(code[0]), k), DigitValue(code[k]))
  {
    forall i | 0 <= i < 7
      ensures Encode(code)[3 + 7 * (k - 1) + i]
           == Pattern(Parity(DigitValue(code[0]), k), DigitValue(code[k]))[i]
    {
      LeftModuleAt(code, k, i);
    }
  }

  /** The seven-module block of right digit k. */
  lemma RightBlock(code: seq<char>, k: int)
    requires ValidCode(code) && 7 <= k <= 12
    ensures Encode(code)[50 + 7 * (k - 7) .. 50 + 7 * (k - 6)] == Pattern(SetC, DigitValue(code[k]))
  {
    forall i | 0 <= i < 7
      ensures Encode(code)[50 + 7 * (k - 7) + i] == Pattern(SetC, DigitValue(code[k]))[i]
    {
      RightModuleAt(code, k, i);
    }
  }
}
