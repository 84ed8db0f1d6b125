# EAN-13 symbol assembler

A Dafny model of the barcode core of pebEAN13, a Pebble watch application
that shows one EAN-13 barcode. The core is `src/main.c`:

- the parity table `ean13Pattern`: for each leading digit 0..9, the number
  set (A = 0, B = 1) of each of the six left-half digits;
- the module-pattern table `pixelsPattern`: the seven modules of every digit
  in number sets A, B and C;
- `ean2bin`: it turns the 13-character `code` into the 95 modules of the
  symbol. The layout is a 3-module start guard, six left digits, a 5-module
  centre guard, six right digits (always set C) and a 3-module stop guard. A
  running cursor `resPos` walks across the output.

This is the EAN/UPC symbology of ISO/IEC 15420.

Files:

- `tables.dfy` (module `Tables`): both tables as constant sequences, with
  lookups `Parity` and `Pattern` and facts about the table data.
- `symbol.dfy` (module `Symbol`): the input condition `ValidCode` and the
  symbol as a value, `Encode`. `Encode` is the concatenation of the guards
  and the digit patterns. The module also proves where each module lands.
- `assembler.dfy` (module `Assembler`): `Ean2Bin`, the imperative assembler.
  It keeps the source's cursor `resPos`, nested loops and straight-line guard
  stores. Each commented section of `ean2bin` (start, first part, medium,
  second part, stop) is one method, and the inner loop is `StoreDigit`.
  `Ean2Bin` calls them in order on one array and one cursor. It is proved to
  fill a fresh array with exactly `Encode(code)`. A ghost log of the stored
  indices shows that every index 0..94 is written once, in order, and that
  nothing else is written.
- `properties.dfy` (module `Properties`): what each digit contributes. This
  covers locality of blocks, the leading digit's role, and injectivity of the
  encoding. It also holds the hard-coded code `9782940199617` and its symbol.
- `checked.dfy` (module `Checked`): an ADDITION, not source behaviour. The
  source never checks its input. This module rejects a wrong length or a
  non-digit character before calling the assembler. It does not compute or
  check the check digit.

Modules are `int` values 0 and 1, as in `int binaryCode[95]`. Number sets
are the integer indices 0, 1 and 2 of the C table. Digit characters are
converted with `c - '0'` (`Symbol.DigitValue`). The source's integer widths
are not an issue here: every value stays below 128.

The hard-coded code `9782940199617` has leading digit 9. Row 9 of the parity
table is `{0,1,1,0,1,0}`, so the left digits 7,8,2,9,4,0 are encoded in sets
A,B,B,A,B,A (`Properties.HardCodedNumberSets`).

## Model

| member | source | states |
|---|---|---|
| `Tables.ParityTableShape` | src/main.c:10-21 | the parity table has 10 rows of 6 entries; every entry is 0 or 1; column 0 of every row is 0 (set A) |
| `Tables.PixelsRowShape` | src/main.c:23-60 | the pattern table has 3 sets of 10 digits; every pattern has 7 modules, each 0 or 1 |
| `Tables.Parity` | src/main.c:10-21 | the number set of left position k (1..6) for a leading digit is A or B, never C; position 1 is always A |
| `Tables.Pattern` | src/main.c:23-60 | a digit's pattern in any set has 7 modules, each 0 or 1, so all table indices derived from digits stay in range |
| `Tables.SetCComplementsSetA` | src/main.c:25-58 | each set-C pattern is the module-by-module complement of the set-A pattern for the same digit |
| `Tables.SetBReversesSetC` | src/main.c:37-58 | each set-B pattern is the set-C pattern for the same digit, reversed |
| `Tables.PatternEdges` | src/main.c:25-58 | set-A and set-B patterns start with 0 and end with 1; set-C patterns start with 1 and end with 0 |
| `Symbol.DigitValue` | src/main.c:79 | `c - '0'` of a decimal digit character is a valid digit index 0..9 |
| `Symbol.LeftSet` | src/main.c:81 | the set of a left digit comes from the leading digit and the position only, and is A or B |
| `Symbol.LeftDigitModules` | src/main.c:79-83 | a left digit contributes exactly 7 modules |
| `Symbol.RightDigitModules` | src/main.c:100-104 | a right digit contributes exactly 7 modules |
| `Symbol.LeftHalf` | src/main.c:77-84 | the first n left digits give 7n modules, each 0 or 1 |
| `Symbol.RightHalf` | src/main.c:99-105 | the first n right digits give 7n modules, each 0 or 1 |
| `Symbol.Encode` | src/main.c:63-113 | the symbol has exactly 95 modules, each 0 or 1 |
| `Symbol.LeftHalfAt` | src/main.c:77-84 | module 7(k-1)+i of the left half is module i of left digit k |
| `Symbol.RightHalfAt` | src/main.c:99-105 | module 7(k-7)+i of the right half is module i of right digit k |
| `Symbol.Guards` | src/main.c:70-112 | for every valid code, modules 0..2 are 1,0,1, modules 45..49 are 0,1,0,1,0 and modules 92..94 are 1,0,1 |
| `Symbol.LeftModuleAt` | src/main.c:77-84 | module 3+7(k-1)+i is `pixelsPattern[ean13Pattern[code[0]-'0'][k-1]][code[k]-'0'][i]` |
| `Symbol.RightModuleAt` | src/main.c:99-105 | module 50+7(k-7)+i is `pixelsPattern[2][code[k]-'0'][i]` |
| `Symbol.LeftBlock` | src/main.c:77-84 | modules 3+7(k-1) .. 3+7k-1 are the whole pattern of left digit k, in the set its parity entry selects |
| `Symbol.RightBlock` | src/main.c:99-105 | modules 50+7(k-7) .. 50+7(k-7)+6 are the set-C pattern of right digit k |
| `Assembler.Cursor` | src/main.c:74-112 | the log of a cursor that has made n stores from index 0 has exactly n entries |
| `Assembler.CursorAt` | src/main.c:74-112 | entry j of that log is j: each index below n is stored once, in increasing order |
| `Assembler.StoreDigit` | src/main.c:80-83 | the inner loop stores one digit's 7 modules at resPos..resPos+6, moves the cursor by 7 and leaves every other index unchanged |
| `Assembler.StartSegments` | src/main.c:70-74 | indices 0..2 become 1,0,1 and the cursor starts at 3 |
| `Assembler.LeftSegments` | src/main.c:76-84 | moves the cursor from 3 to 45 and appends the six left digits in their parity-selected sets |
| `Assembler.MediumSegments` | src/main.c:86-96 | moves the cursor from 45 to 50 and appends the centre guard 0,1,0,1,0 |
| `Assembler.RightSegments` | src/main.c:98-105 | moves the cursor from 50 to 92 and appends the six right digits in set C |
| `Assembler.StopSegments` | src/main.c:107-112 | stores 1,0,1 at 92..94; the last store is at index 94 |
| `Assembler.Ean2Bin` | src/main.c:63-113 | fills a fresh 95-element array with exactly `Encode(code)`; its log of stored indices is 0,1,...,94, so each index is written exactly once, in order, and never out of bounds |
| `Properties.LeftBlockLocality` | src/main.c:79-81 | a left block depends only on the leading digit and its own digit |
| `Properties.RightBlockLocality` | src/main.c:100-102 | a right block depends only on its own digit, not on the leading digit |
| `Properties.FirstLeftDigitInSetA` | src/main.c:11-20 | the first left digit is always encoded in set A |
| `Properties.LeadingZeroAllSetA` | src/main.c:11 | with leading digit 0, all six left digits are encoded in set A |
| `Properties.LeadingDigitOnlySelectsParity` | src/main.c:63-113 | codes that agree from position 1 on have the same guards and right half, and equal left blocks wherever their parity rows agree: the leading digit has no modules of its own |
| `Properties.PatternsDistinct` | src/main.c:23-60 | no pattern repeats within set C, nor within sets A and B together |
| `Properties.ParityRowsDistinct` | src/main.c:10-21 | no two leading digits share a parity row |
| `Properties.EncodeInjective` | src/main.c:63-113 | distinct valid codes give distinct symbols, so the leading digit is fixed by the left half's number sets |
| `Properties.HardCodedIsValid` | src/main.c:7 | the hard-coded code meets the assembler's input condition |
| `Properties.HardCodedNumberSets` | src/main.c:20 | leading digit 9 selects sets A,B,B,A,B,A for the left digits 7,8,2,9,4,0 |
| `Properties.HardCodedLeftBlocks` | src/main.c:76-84 | for `9782940199617` the six left blocks (modules 3..44) are the stated 7-bit patterns |
| `Properties.HardCodedRightBlocks` | src/main.c:98-105 | for `9782940199617` the six right blocks (modules 50..91) are the stated 7-bit patterns |
| `Checked.FirstNonDigit` | src/main.c:79 | addition: the first non-digit position at or after `from`, with every position before it a digit |
| `Checked.EncodeChecked` | src/main.c:7 | addition: succeeds exactly when the code meets the assembler's input condition, and then yields `Encode(code)`; otherwise it reports a wrong length, or the first non-digit position |
| `Checked.CheckedExamples` | src/main.c:7 | addition: `978294019961A` is rejected at index 12; codes of length 12 and 14 are rejected for length |

## Left out

- `drawBarCode` (src/main.c:115-124): pixel drawing through the platform's
  `graphics_draw_pixel`. Its inner loop reads `binaryCode[95]`, one past the
  array. The model ends at the 95-module array and does not reproduce that read.
- Pebble window and text-layer glue, `init`, `deinit`, `main` and the event
  loop (src/main.c:126-162): platform calls with no logic to model.
- The C string `code[13]`: it has no terminating NUL but is passed to
  `text_layer_set_text` as a string. In the model `code` is a 13-character
  sequence.
- The global buffer `binaryCode`: the source reuses it across calls.
  `Ean2Bin` returns a fresh array instead, so buffer reuse and aliasing are
  not modelled.
- Check digits: the source neither computes nor checks the thirteenth digit,
  and neither does the model.
- Out-of-range characters: `ean2bin` indexes its tables with `code[i] - '0'`
  unchecked. A non-digit character there is undefined behaviour in C. The
  model makes "13 characters, each '0'..'9'" a precondition (`ValidCode`).
  It does not model what the C code would do otherwise.
- The single function `ean2bin`: the model splits it along its own comments
  into five section methods and an inner-loop method. `Ean2Bin` calls them in
  order on one array with one cursor, so the order of the stores is the
  source's order. The split keeps each proof small; it adds no behaviour.
