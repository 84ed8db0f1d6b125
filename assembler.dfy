/** The assembler: fills a fresh 95-module array from a 13-digit code with a
    running write cursor, as the source does, and is proved to produce
    exactly Symbol.Encode. */
module Assembler {
  import opened Tables
  import opened Symbol

  /** The indices 0..n-1 in increasing order: the log of a cursor that
      stores once at each index from 0 and moves one step after each store. */
  function Cursor(n: int): (r: seq<int>)
    requires 0 <= n
    ensures |r| == n
  {
    if n == 0 then [] else Cursor(n - 1) + [n - 1]
  }

  /** Each entry of the log is its own position: every index below n is
      stored exactly once, and nothing else is stored. */
  lemma {:induction false} CursorAt(n: int, j: int)
    requires 0 <= j < n
    ensures Cursor(n)[j] == j
  {
    if j < n - 1 {
      CursorAt(n - 1, j);
    }
  }

  /** The inner loop of both halves: stores the seven modules of one digit
      at resPos .. resPos+6, one store per step, and leaves the rest of the
      array alone. */
  method StoreDigit(binaryCode: array<int>, pattern: seq<int>, resPos: int, ghost writes: seq<int>)
    returns (next: int, ghost logged: seq<int>)
    requires |pattern| == 7 && 0 <= resPos && resPos + 7 <= binaryCode.Length
    requires writes == Cursor(resPos)
    modifies binaryCode
    ensures next == resPos + 7 && logged == Cursor(next)
    ensures binaryCode[..next] == old(binaryCode[..resPos]) + pattern
    ensures binaryCode[next..] == old(binaryCode[next..])
  {
    next, logged := resPos, writes;
    var i := 0;
    while i < 7
      invariant 0 <= i <= 7
      invariant next == resPos + i && logged == Cursor(next)
      invariant binaryCode[..next] == old(binaryCode[..resPos]) + pattern[..i]
      invariant binaryCode[resPos + 7..] == old(binaryCode[resPos + 7..])
    {
      binaryCode[next] := pattern[i];
      logged := logged + [next];
      next := next + 1;
      i := i + 1;
    }
  }

  /** Start segments: the bar-space-bar guard at indices 0, 1, 2. */
  method StartSegments(binaryCode: array<int>) returns (resPos: int, ghost writes: seq<int>)
    requires binaryCode.Length == SymbolWidth
    modifies binaryCode
    ensures resPos == 3 && writes == Cursor(resPos)
    ensures binaryCode[..resPos] == StartGuard
    ensures binaryCode[resPos..] == old(binaryCode[resPos..])
  {
    writes := [];
    binaryCode[0] := 1;
    writes := writes + [0];
    binaryCode[1] := 0;
    writes := writes + [1];
    binaryCode[2] := 1;
    writes := writes + [2];
    resPos := 3;
  }

  /** Segments for the first part: the six left digits, each in the number
      set that the leading digit selects for its position. */
  method LeftSegments(code: seq<char>, binaryCode: array<int>, resPos: int, ghost writes: seq<int>)
    returns (next: int, ghost logged: seq<int>)
    requires ValidCode(code) && binaryCode.Length == SymbolWidth
    requires resPos == 3 && writes == Cursor(resPos)
    modifies binaryCode
    ensures next == 45 && logged == Cursor(next)
    ensures binaryCode[..next] == old(binaryCode[..resPos]) + LeftHalf(code, 6)
    ensures binaryCode[next..] == old(binaryCode[next..])
  {
    var firstDigit := DigitValue(code[0]);
    next, logged := resPos, writes;
    var digitPos := 1;
    while digitPos < 7
      invariant 1 <= digitPos <= 7
      invariant next == 3 + 7 * (digitPos - 1) && logged == Cursor(next)
      invariant binaryCode[..next] == old(binaryCode[..resPos]) + LeftHalf(code, digitPos - 1)
      invariant binaryCode[45..] == old(binaryCode[45..])
    {
      var digit := DigitValue(code[digitPos]);
      next, logged := StoreDigit(binaryCode, Pattern(Parity(firstDigit, digitPos), digit), next, logged);
      digitPos := digitPos + 1;
    }
  }

  /** Medium segments: the space-bar-space-bar-space centre guard. */
  method MediumSegments(binaryCode: array<int>, resPos: int, ghost writes: seq<int>)
    returns (next: int, ghost logged: seq<int>)
    requires binaryCode.Length == SymbolWidth
    requires resPos == 45 && writes == Cursor(resPos)
    modifies binaryCode
    ensures next == 50 && logged == Cursor(next)
    ensures binaryCode[..next] == old(binaryCode[..resPos]) + CentreGuard
    ensures binaryCode[next..] == old(binaryCode[next..])
  {
    next, logged := resPos, writes;
    binaryCode[next] := 0;
    logged := logged + [next];
    next := next + 1;
    binaryCode[next] := 1;
    logged := logged + [next];
    next := next + 1;
    binaryCode[next] := 0;
    logged := logged + [next];
    next := next + 1;
    binaryCode[next] := 1;
    logged := logged + [next];
    next := next + 1;
    binaryCode[next] := 0;
    logged := logged + [next];
    next := next + 1;
  }

  /** Segments for the second part: the six right digits, always in
      number set C. */
  method RightSegments(code: seq<char>, binaryCode: array<int>, resPos: int, ghost writes: seq<int>)
    returns (next: int, ghost logged: seq<int>)
    requires ValidCode(code) && binaryCode.Length == SymbolWidth
    requires resPos == 50 && writes == Cursor(resPos)
    modifies binaryCode
    ensures next == 92 && logged == Cursor(next)
    ensures binaryCode[..next] == old(binaryCode[..resPos]) + RightHalf(code, 6)
    ensures binaryCode[next..] == old(binaryCode[next..])
  {
    next, logged := resPos, writes;
    var digitPos := 7;
    while digitPos < 13
      invariant 7 <= digitPos <= 13
      invariant next == 50 + 7 * (digitPos - 7) && logged == Cursor(next)
      invariant binaryCode[..next] == old(binaryCode[..resPos]) + RightHalf(code, digitPos - 7)
      invariant binaryCode[92..] == old(binaryCode[92..])
    {
      var digit := DigitValue(code[digitPos]);
      next, logged := StoreDigit(binaryCode, Pattern(SetC, digit), next, logged);
      digitPos := digitPos + 1;
    }
  }

  /** Stop segments: the closing bar-space-bar guard; the last store is at
      index 94. */
  method StopSegments(binaryCode: array<int>, resPos: int, ghost writes: seq<int>)
    returns (ghost logged: seq<int>)
    requires binaryCode.Length == SymbolWidth
    requires resPos == 92 && writes == Cursor(resPos)
    modifies binaryCode
    ensures logged == Cursor(SymbolWidth)
    ensures binaryCode[..] == old(binaryCode[..resPos]) + StopGuard
  {
    var pos := resPos;
    logged := writes;
    binaryCode[pos] := 1;
    logged := logged + [pos];
    pos := pos + 1;
    binaryCode[pos] := 0;
    logged := logged + [pos];
    pos := pos + 1;
    binaryCode[pos] := 1;
    logged := logged + [pos];
  }

  /** Writes the symbol of `code` into a new array, section by section,
      with one cursor running from 0 to 94. The ghost sequence `writes`
      records the index of every store in order, so its postcondition says
      that each index 0..94 is written exactly once, in increasing order, and
      nothing else is written. */
  method Ean2Bin(code: seq<char>) returns (binaryCode: array<int>, ghost writes: seq<int>)
    requires ValidCode(code)
    ensures fresh(binaryCode)
    ensures binaryCode[..] == Encode(code)
    ensures |writes| == SymbolWidth && forall j :: 0 <= j < |writes| ==> writes[j] == j
  {
    binaryCode := new int[SymbolWidth];
    var resPos;
    resPos, writes := StartSegments(binaryCode);
    resPos, writes := LeftSegments(code, binaryCode, resPos, writes);
    resPos, writes := MediumSegments(binaryCode, resPos, writes);
    resPos, writes := RightSegments(code, binaryCode, resPos, writes);
    writes := StopSegments(binaryCode, resPos, writes);
    forall j | 0 <= j < |writes|
      ensures writes[j] == j
    {
      CursorAt(SymbolWidth, j);
    }
  }
}
