/** What each part of the code contributes to the symbol: every block depends
    on its own digit and (on the left) on the leading digit's parity row only;
    the leading digit has no block of its own; and the one code the
    application displays. */
module Properties {
  import opened Tables
  import opened Symbol

  /** A left block depends only on the leading digit and its own digit, never
      on the other digits. */
  lemma LeftBlockLocality(c1: seq<char>, c2: seq<char>, k: int)
    requires ValidCode(c1) && ValidCode(c2) && 1 <= k <= 6
    requires c1[0] == c2[0] && c1[k] == c2[k]
    ensures Encode(c1)[3 + 7 * (k - 1) .. 3 + 7 * k] == Encode(c2)[3 + 7 * (k - 1) .. 3 + 7 * k]
  {
    LeftBlock(c1, k);
    LeftBlock(c2, k);
  }

  /** A right block depends only on its own digit: not on the leading digit,
      nor on any other digit. */
  lemma RightBlockLocality(c1: seq<char>, c2: seq<char>, k: int)
    requires ValidCode(c1) && ValidCode(c2) && 7 <= k <= 12
    requires c1[k] == c2[k]
    ensures Encode(c1)[50 + 7 * (k - 7) .. 50 + 7 * (k - 6)] == Encode(c2)[50 + 7 * (k - 7) .. 50 + 7 * (k - 6)]
  {
    RightBlock(c1, k);
    RightBlock(c2, k);
  }

  /** The first left digit is always in number set A, whatever the leading
      digit. */
  lemma FirstLeftDigitInSetA(code: seq<char>)
    requires ValidCode(code)
    ensures Encode(code)[3..10] == Pattern(SetA, DigitValue(code[1]))
  {
    LeftBlock(code, 1);
  }

  /** A leading 0 puts all six left digits in number set A. */
  lemma LeadingZeroAllSetA(code: seq<char>)
    requires ValidCode(code) && code[0] == '0'
    ensures forall k :: 1 <= k <= 6 ==>
      Encode(code)[3 + 7 * (k - 1) .. 3 + 7 * k] == Pattern(SetA, DigitValue(code[k]))
  {
    forall k | 1 <= k <= 6
      ensures Encode(code)[3 + 7 * (k - 1) .. 3 + 7 * k] == Pattern(SetA, DigitValue(code[k]))
    {
      LeftBlock(code, k);
      assert Ean13Pattern[0][k - 1] == SetA;
    }
  }

  /** The leading digit gets no modules of its own: two codes that agree
      from position 1 on have the same guards and the same right half, and
      their left blocks agree wherever the two parity rows agree. */
  lemma LeadingDigitOnlySelectsParity(c1: seq<char>, c2: seq<char>)
    requires ValidCode(c1) && ValidCode(c2) && c1[1..] == c2[1..]
    ensures Encode(c1)[..3] == Encode(c2)[..3]
    ensures Encode(c1)[45..] == Encode(c2)[45..]
    ensures forall k :: 1 <= k <= 6 && Parity(DigitValue(c1[0]), k) == Parity(DigitValue(c2[0]), k) ==>
      Encode(c1)[3 + 7 * (k - 1) .. 3 + 7 * k] == Encode(c2)[3 + 7 * (k - 1) .. 3 + 7 * k]
  {
    Guards(c1);
    Guards(c2);
    forall j | 45 <= j < 95
      ensures Encode(c1)[j] == Encode(c2)[j]
    {
      if 50 <= j < 92 {
        var k := 7 + (j - 50) / 7;
        assert c1[k] == c1[1..][k - 1];
        RightBlockLocality(c1, c2, k);
        assert Encode(c1)[50 + 7 * (k - 7) .. 50 + 7 * (k - 6)][j - 50 - 7 * (k - 7)] == Encode(c1)[j];
      } else if j < 50 {
        assert Encode(c1)[45..50][j - 45] == Encode(c1)[j];
      } else {
        assert Encode(c1)[92..][j - 92] == Encode(c1)[j];
      }
    }
    forall k | 1 <= k <= 6 && Parity(DigitValue(c1[0]), k) == Parity(DigitValue(c2[0]), k)
      ensures Encode(c1)[3 + 7 * (k - 1) .. 3 + 7 * k] == Encode(c2)[3 + 7 * (k - 1) .. 3 + 7 * k]
    {
      assert c1[k] == c1[1..][k - 1];
      LeftBlock(c1, k);
      LeftBlock(c2, k);
    }
  }

  /** No digit pattern repeats within number set C, nor within number sets
      A and B taken together. */
  lemma PatternsDistinct(s1: int, d1: int, s2: int, d2: int)
    requires 0 <= d1 < 10 && 0 <= d2 < 10
    requires (s1 == SetC && s2 == SetC) || ((s1 == SetA || s1 == SetB) && (s2 == SetA || s2 == SetB))
    requires Pattern(s1, d1) == Pattern(s2, d2)
    ensures s1 == s2 && d1 == d2
  {
  }

  /** No two leading digits share a parity row. */
  lemma ParityRowsDistinct(f1: int, f2: int)
    requires 0 <= f1 < 10 && 0 <= f2 < 10
    requires forall k :: 1 <= k <= 6 ==> Parity(f1, k) == Parity(f2, k)
    ensures f1 == f2
  {
    ParityTableShape(f1);
    ParityTableShape(f2);
    forall j | 0 <= j < 6
      ensures Ean13Pattern[f1][j] == Ean13Pattern[f2][j]
    {
      assert Parity(f1, j + 1) == Parity(f2, j + 1);
    }
    assert Ean13Pattern[f1] == Ean13Pattern[f2];
    assert forall i, j :: 0 <= i < j < 10 ==> Ean13Pattern[i] != Ean13Pattern[j];
  }

  /** The symbol loses nothing: distinct codes give distinct symbols. In
      particular the leading digit, which has no block of its own, is fixed
      by the sequence of number sets in the left half. */
  lemma EncodeInjective(c1: seq<char>, c2: seq<char>)
    requires ValidCode(c1) && ValidCode(c2)
    requires Encode(c1) == Encode(c2)
    ensures c1 == c2
  {
    var f1, f2 := DigitValue(c1[0]), DigitValue(c2[0]);
    forall k | 1 <= k <= 6
      ensures c1[k] == c2[k] && Parity(f1, k) == Parity(f2, k)
    {
      LeftBlock(c1, k);
      LeftBlock(c2, k);
      PatternsDistinct(Parity(f1, k), DigitValue(c1[k]), Parity(f2, k), DigitValue(c2[k]));
    }
    ParityRowsDistinct(f1, f2);
    forall k | 7 <= k <= 12
      ensures c1[k] == c2[k]
    {
      RightBlock(c1, k);
      RightBlock(c2, k);
      PatternsDistinct(SetC, DigitValue(c1[k]), SetC, DigitValue(c2[k]));
    }
    assert forall i :: 0 <= i < 13 ==> c1[i] == c2[i];
  }

  /** The code the application encodes and displays. */
  const HardCodedCode: seq<char> := "9782940199617"

  lemma HardCodedIsValid()
    ensures ValidCode(HardCodedCode)
  {
    forall i | 0 <= i < 13 ensures IsDigitChar(HardCodedCode[i]) {}
  }

  /** Leading digit 9 selects parity row {0,1,1,0,1,0}: left digits
      7,8,2,9,4,0 go into number sets A,B,B,A,B,A. */
  lemma HardCodedNumberSets()
    ensures ValidCode(HardCodedCode)
    ensures forall k :: 1 <= k <= 6 ==> LeftSet(HardCodedCode, k) == [SetA, SetB, SetB, SetA, SetB, SetA][k - 1]
  {
    HardCodedIsValid();
  }

  /** The left half of the displayed code, block by block: digits
      7,8,2,9,4,0 in number sets A,B,B,A,B,A. */
  lemma HardCodedLeftBlocks()
    ensures ValidCode(HardCodedCode)
    ensures Encode(HardCodedCode)[3..10] == [0, 1, 1, 1, 0, 1, 1]
    ensures Encode(HardCodedCode)[10..17] == [0, 0, 0, 1, 0, 0, 1]
    ensures Encode(HardCodedCode)[17..24] == [0, 0, 1, 1, 0, 1, 1]
    ensures Encode(HardCodedCode)[24..31] == [0, 0, 0, 1, 0, 1, 1]
    ensures Encode(HardCodedCode)[31..38] == [0, 0, 1, 1, 1, 0, 1]
    ensures Encode(HardCodedCode)[38..45] == [0, 0, 0, 1, 1, 0, 1]
  {
    var c := HardCodedCode;
    HardCodedIsValid();
    LeftBlock(c, 1);
    LeftBlock(c, 2);
    LeftBlock(c, 3);
    LeftBlock(c, 4);
    LeftBlock(c, 5);
    LeftBlock(c, 6);
  }

  /** The right half of the displayed code, block by block: digits
      1,9,9,6,1,7, all in number set C. */
  lemma HardCodedRightBlocks()
    ensures ValidCode(HardCodedCode)
    ensures Encode(HardCodedCode)[50..57] == [1, 1, 0, 0, 1, 1, 0]
    ensures Encode(HardCodedCode)[57..64] == [1, 1, 1, 0, 1, 0, 0]
    ensures Encode(HardCodedCode)[64..71] == [1, 1, 1, 0, 1, 0, 0]
    ensures Encode(HardCodedCode)[71..78] == [1, 0, 1, 0, 0, 0, 0]
    ensures Encode(HardCodedCode)[78..85] == [1, 1, 0, 0, 1, 1, 0]
    ensures Encode(HardCodedCode)[85..92] == [1, 0, 0, 0, 1, 0, 0]
  {
    var c := HardCodedCode;
    HardCodedIsValid();
    RightBlock(c, 7);
    RightBlock(c, 8);
    RightBlock(c, 9);
    RightBlock(c, 10);
    RightBlock(c, 11);
    RightBlock(c, 12);
  }
}
