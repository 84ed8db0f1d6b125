/** An input check placed in front of the assembler. The assembler itself
    never checks its input; this module is an addition that rejects what the
    assembler's precondition excludes, naming the first offending position.
    It computes no check digit and rejects no code for its thirteenth digit. */
module Checked {
  import opened Symbol

  datatype CodeError =
    | InvalidCodeLength(length: int)
    | InvalidDigit(index: int)

  datatype Result<T> = Ok(value: T) | Err(error: CodeError)

  /** The first position at or after `from` that holds no decimal digit, or
      |code| when there is none. */
  function FirstNonDigit(code: seq<char>, from: int): (i: int)
    requires 0 <= from <= |code|
    ensures from <= i <= |code|
    ensures i < |code| ==> !IsDigitChar(code[i])
    ensures forall j :: from <= j < i ==> IsDigitChar(code[j])
    decreases |code| - from
  {
    if from == |code| then |code|
    else if !IsDigitChar(code[from]) then from
    else FirstNonDigit(code, from + 1)
  }

  /** The symbol of `code`, or why `code` cannot be encoded: a length other
      than 13 first, otherwise the first position holding a non-digit. */
  function EncodeChecked(code: seq<char>): (r: Result<seq<int>>)
    ensures r.Ok? <==> ValidCode(code)
    ensures r.Ok? ==> r.value == Encode(code)
    ensures (r.Err? && r.error.InvalidCodeLength?) <==> |code| != 13
    ensures r.Err? && r.error.InvalidCodeLength? ==> r.error.length == |code|
    ensures |code| == 13 && !ValidCode(code) ==> r.Err? && r.error.InvalidDigit?
    ensures r.Err? && r.error.InvalidDigit? ==>
      |code| == 13 && 0 <= r.error.index < 13 && !IsDigitChar(code[r.error.index]) &&
      forall j :: 0 <= j < r.error.index ==> IsDigitChar(code[j])
  {
    if |code| != 13 then Err(InvalidCodeLength(|code|))
    else
      var i := FirstNonDigit(code, 0);
      if i < 13 then Err(InvalidDigit(i)) else Ok(Encode(code))
  }

  /** A code with a letter in its last position is rejected at that
      position; codes one digit short or long are rejected for length. */
  lemma CheckedExamples()
    ensures EncodeChecked("978294019961A") == Err(InvalidDigit(12))
    ensures EncodeChecked("978294019961") == Err(InvalidCodeLength(12))
    ensures EncodeChecked("97829401996170") == Err(InvalidCodeLength(14))
  {
    var c := "978294019961A";
    assert forall j :: 0 <= j < 12 ==> IsDigitChar(c[j]);
    assert !IsDigitChar(c[12]);
  }
}
