# A verified model of sim8086's MOV decoder, the haversine JSON reader and its profiler

This project models three small parts of a performance-aware programming
course repository, in Dafny, and proves properties of them.

- **sim8086** (`sim8086.dfy`, module `Sim8086`): the first 8086
  disassembler. It reads a machine-code stream. A byte whose top six bits are
  `100010` starts a register/memory MOV; its second byte carries the
  `mod reg r/m` fields. The instruction is printed as `mov <dst>, <src>`,
  naming registers from Table 4-9 of the Intel 8086 Family User's Manual.
  Every other byte is skipped.
  - `Decode` and the one-turn `DecodeStep` specify the decoder.
  - `Disassemble` is its driver loop, over an index into the byte sequence.
  - `Encode`/`Assemble` form an assembler. It is the decoder's inverse, and
    the round-trip lemmas connect the two.
- **lex** (`json_lex.dfy`, module `JsonLex`): the tokenizer of the haversine
  JSON reader. It has seven punctuation tokens, maximal-munch number and
  identifier lexemes, unknown characters, and a final END.
  - `Scan`/`Lex` specify it over the unread text.
  - `LexText` is the C loop over a doubling token array.
  - `ScanLexeme` is the inner loop filling the 128-byte buffer.
- **parse** (`json_parse.dfy`, module `JsonParse`): the structural parser.
  It walks the tokens with a stack of openers. It checks the nesting of
  braces, brackets and quotes, reads `expected`, and collects one pair per
  object met at stack depth 4.
  - `Step`/`Run`/`ParseTokens` specify it as a state machine.
  - `Parse` is the C loop: an opener stack array and `sp`, and a doubling
    pairs array.
  - A failing C `assert` becomes a `Fail` result naming the token index.
- **The generated file** (`generator.dfy`, module `Generator`): the text
  layout that haversine/generator.c prints, `{"pairs": [{"x0": X0, ...}, ...],
  "expected": E}`. It is used to prove that lex followed by parse gives back
  every pair in order, and the expected value.
- **The profiler** (`prof.dfy`, module `Prof`): the context-stack
  bookkeeping of haversine/prof.h.
  - `Profiler` holds the two global arrays (`prof_contexts`, the frame
    stack) and `sp`.
  - `Begin` is the `PROF_BANDWIDTH` push and `End` is `prof_end_time_block`.
  - Both are proved against the value-level functions `Pushed`/`Popped`.
  - The invariant `WellFormed` says each site's `stack_count` equals its
    number of frames on the stack.

Numbers are kept as their lexemes (`Num = Zero | Lit(lexeme)`). Text is
`seq<char>`, and machine code is `seq<bv8>`. The CPU timer reading is the
`now` parameter of `Begin` and `End`. The `u64` fields and the elapsed-time
subtraction wrap modulo 2^64 (`Add64`, `Sub64`).

Where the source and its description differ, the model follows the source:
in `parse`, a `{` or `[` read while a `"` is on top of the stack pops the
quote instead of pushing. This is the shared case of the C switch.

One behaviour of the source is modelled twice. A lex number or identifier
that reaches the end of the file is put back onto its own last character,
which is then read again (see Findings). `ScanOneAsWritten`, `AfterTurns` and
`ScanAsWritten` model lex as written, and the lemmas about them show where it
never ends. `ScanOne`, `Scan`, `ScanLexeme`, `ReadToken` and `LexText` model
lex with that end-of-file step corrected, and the rest of the model uses them.
The two agree on every text whose last character can neither start nor
continue a run (`AsWrittenAgreesWhenRunsStop`). A generated file ends in `}`,
so lex as written, the one `main` calls, gives it the same tokens, and the
round trip through parse holds for both.

## Model

| member | source | states |
|---|---|---|
| Sim8086.Opcode | sim8086/main.c:32 | the opcode is the byte shifted right by two, a six-bit value |
| Sim8086.Direction | sim8086/main.c:40 | d is bit 1 of the first byte, 0 or 1 |
| Sim8086.Wide | sim8086/main.c:41 | w is bit 0 of the first byte, 0 or 1 |
| Sim8086.Mode | sim8086/main.c:42 | mod is bits 7..6 of the second byte, at most 3 |
| Sim8086.Reg | sim8086/main.c:43 | reg is bits 5..3 of the second byte, at most 7, so the table index is in bounds |
| Sim8086.Rm | sim8086/main.c:44 | r/m is bits 2..0 of the second byte, at most 7, so the table index is in bounds |
| Sim8086.FieldsOf | sim8086/main.c:40-44 | every extracted field is within its range |
| Sim8086.RegName | sim8086/main.c:5-8 | the name in REG_TABLE (RegTable) at row w and column reg, Table 4-9 of the 8086 manual (a definition; WidthSelectsRow and the round-trip lemmas are about it) |
| Sim8086.Text | sim8086/main.c:47-49 | the printed line `mov <dst>, <src>` without its newline (a definition; its properties are ListingOne and ListingAppend) |
| Sim8086.Render | sim8086/main.c:46-49 | both names come from row w of Table 4-9, reg first when d = 1 and r/m first when d = 0 (a definition; its properties are DirectionSwapsOperands, ModeIgnored and WidthSelectsRow) |
| Sim8086.DecodePair | sim8086/main.c:40-49 | the line printed for a MOV byte pair: its fields extracted and rendered (a definition; EncodeFieldsOf and DecodeEncodeHead are about it) |
| Sim8086.DecodeStep | sim8086/main.c:30-55 | a turn consumes two bytes exactly when the first has the MOV opcode and a second byte exists, otherwise one; it emits a line exactly when it consumed two, and that line is the decoded pair |
| Sim8086.Decode | sim8086/main.c:29-56 | at most one line per two bytes of input |
| Sim8086.DecodeCons | sim8086/main.c:29-56 | a MOV pair contributes its line before the lines of the rest; any other byte contributes nothing |
| Sim8086.Listing | sim8086/main.c:47-49 | each line printed with its newline, in order (a definition; ListingOne, ListingAppend and ListingStep are about it) |
| Sim8086.Header | sim8086/main.c:25 | the fixed prefix `; <name>:`, `bits 16` and an empty line printed before the loop (a definition) |
| Sim8086.ListingAppend | sim8086/main.c:47-49 | the printed text of two runs of lines is the concatenation of their texts |
| Sim8086.ListingOne | sim8086/main.c:47-49 | one line prints as its text and a newline |
| Sim8086.ListingStep | sim8086/main.c:29-56 | the printed text of a stream, one loop turn unrolled |
| Sim8086.Disassemble | sim8086/main.c:25-56 | the loop's output is the header followed by the text of Decode of the stream |
| Sim8086.Encode | sim8086/main.c:40-44 | the two bytes built from well-formed fields have the MOV opcode, and extracting fields from them gives the same fields back |
| Sim8086.RenderAll | sim8086/main.c:46-49 | one rendered line per instruction |
| Sim8086.EncodeFieldsOf | sim8086/main.c:40-44 | re-encoding the fields of a MOV pair gives back both bytes |
| Sim8086.DecodeEncodeHead | sim8086/main.c:29-56 | an encoded instruction in front of any stream decodes to its line before the rest |
| Sim8086.DecodeAssemble | sim8086/main.c:29-56 | decoding assembled instructions followed by any tail gives their lines in order, then the tail's |
| Sim8086.DecodeAssembleExactly | sim8086/main.c:29-56 | decode inverts assemble |
| Sim8086.TrailingByte | sim8086/main.c:30-38 | any byte after a whole program, including a lone MOV first byte, adds no line, and decoding ends |
| Sim8086.NoMovNoLines | sim8086/main.c:53-54 | a stream with no MOV first byte prints nothing |
| Sim8086.DirectionSwapsOperands | sim8086/main.c:46-49 | flipping d keeps the opcode and swaps destination and source |
| Sim8086.ModeIgnored | sim8086/main.c:42-50 | changing mod leaves the printed line unchanged |
| Sim8086.WidthSelectsRow | sim8086/main.c:41-49 | w = 0 gives two 8-bit register names, w = 1 two 16-bit names |
| Sim8086.Example | sim8086/main.c:29-56 | bytes 0x89 0xD9 print `mov cx, bx` |
| JsonLex.IsDigit | haversine/haversine.c:131 | isdigit in the C locale: `0` to `9` (a definition) |
| JsonLex.IsAlnum | haversine/haversine.c:144 | isalnum in the C locale: digits and the ASCII letters (a definition) |
| JsonLex.IsSpace | haversine/haversine.c:156 | isspace in the C locale: space, tab, newline, vertical tab, form feed and carriage return (a definition) |
| JsonLex.Punctuation | haversine/haversine.c:94-128 | the seven punctuation characters and their tokens, and no token for any other character (a definition; PunctuationToken is about it) |
| JsonLex.Continues | haversine/haversine.c:135-147 | a number continues with a digit or `.`, an identifier with an alphanumeric character (a definition; RunLength is about it) |
| JsonLex.RunLength | haversine/haversine.c:135-137 | the inner loop takes the longest prefix whose characters continue the run, and stops at a character that does not |
| JsonLex.ScanOne | haversine/haversine.c:93-164 | one outer turn takes between one character and the rest of the text, and never makes END |
| JsonLex.Scan | haversine/haversine.c:92-171 | the tokens of the loop over the whole text never include END |
| JsonLex.Emit | haversine/haversine.c:94-161 | a turn appends one token exactly when it makes one, otherwise none |
| JsonLex.Lex | haversine/haversine.c:92-175 | the token array ends with exactly one END, and no earlier token is END |
| JsonLex.CapacityDoubles | haversine/haversine.c:167-170 | doubling keeps the capacity a power-of-two multiple of 1024 |
| JsonLex.Grow | haversine/haversine.c:168-169 | the reallocated array is twice as long and keeps the first len tokens |
| JsonLex.ScanCons | haversine/haversine.c:92-171 | Scan is the current turn's tokens followed by the tokens of the text after it |
| JsonLex.ScanAt | haversine/haversine.c:92-171 | the same from position i of the whole text |
| JsonLex.RunLengthAtLeast | haversine/haversine.c:135-137 | a run continues at least as far as every character continues it |
| JsonLex.RunLengthExactly | haversine/haversine.c:135-137 | a run stops exactly at the first character that does not continue it |
| JsonLex.ScanLexeme | haversine/haversine.c:132-138 | the buffer loop returns the lexeme from the start through the maximal run, and the position just after the run: the character that stopped it, or the end of the text (at the end of the text the C is one character back; see Left out) |
| JsonLex.PunctuationToken | haversine/haversine.c:94-128 | each of `{ } [ ] " , :` yields exactly one token of its own kind |
| JsonLex.SpaceSkipped | haversine/haversine.c:156 | whitespace yields no token |
| JsonLex.UnknownToken | haversine/haversine.c:156-161 | any other character that starts no lexeme yields one UNKNOWN token carrying it |
| JsonLex.ScanOneMaximal | haversine/haversine.c:131-155 | a number is a digit or `-` then digits and `.`, an identifier a letter then alphanumerics, each the maximal run; the stopping character is left to be reread |
| JsonLex.RunLengthAppend | haversine/haversine.c:135-137 | a run over a text followed by a character that cannot continue it has the run's length over the text |
| JsonLex.NumberLexeme | haversine/haversine.c:131-143 | a whole number lexeme followed by a character that cannot continue it yields exactly one NUMBER with that lexeme |
| JsonLex.IdentLexeme | haversine/haversine.c:144-155 | a whole identifier followed by a non-alphanumeric yields exactly one IDENT with that name |
| JsonLex.AlphaStartsIdent | haversine/haversine.c:131-144 | a letter reaches the identifier branch, because digits and `-` are taken first |
| JsonLex.ScanOneAsWritten | haversine/haversine.c:131-155 | the loop as written makes the same token, and rereads one character more only when the run reaches the end of the text |
| JsonLex.AsWrittenAgreesInside | haversine/haversine.c:135-151 | inside the text the loop as written and the corrected one take the same characters |
| JsonLex.AsWrittenRereadsLast | haversine/haversine.c:138 | as written, a lexeme of two or more characters at the end of the file gives back its last character |
| JsonLex.AsWrittenStalls | haversine/haversine.c:135-138 | as written, the text `5` yields NUMBER `5` and consumes nothing, so lex never ends |
| JsonLex.StartsRun | haversine/haversine.c:131-144 | the characters that start a number (a digit or `-`) or an identifier (a letter or digit) (a definition) |
| JsonLex.AsWrittenProgress | haversine/haversine.c:131-157 | as written, a turn that starts before the last character consumes at least one character and never goes past the last one |
| JsonLex.AsWrittenAtLast | haversine/haversine.c:131-157 | as written, the turn on the last character consumes nothing exactly when that character starts a number or an identifier, and consumes it otherwise |
| JsonLex.AfterTurns | haversine/haversine.c:92-171 | the position of lex as written after n turns of its outer loop, never beyond the end of the text |
| JsonLex.AsWrittenNeverEnds | haversine/haversine.c:92-171 | as written, a text whose last character is a digit, a letter or `-` never reaches the end of the file, however many turns lex takes |
| JsonLex.AsWrittenEnds | haversine/haversine.c:92-171 | as written, any other text reaches the end of the file after at most one turn per character |
| JsonLex.ScanAsWritten | haversine/haversine.c:92-171 | the tokens lex as written stores for a text it finishes (a definition; AsWrittenRereadsDot is about it) |
| JsonLex.AsWrittenWidth | haversine/haversine.c:131-157 | on a text that lex as written finishes, every turn consumes at least one character |
| JsonLex.ScanAsWrittenCons | haversine/haversine.c:92-171 | ScanAsWritten is the current turn's tokens followed by the tokens after that turn |
| JsonLex.DigitDotTurn | haversine/haversine.c:131-143 | a digit and a `.` ending the text make one NUMBER of both characters; the corrected turn consumes both, and the turn as written only the digit |
| JsonLex.DotTurn | haversine/haversine.c:156-161 | a lone `.` is an UNKNOWN character |
| JsonLex.AsWrittenRereadsDot | haversine/haversine.c:131-161 | a text such as `1.` ends, but as written lex stores NUMBER `1.` and then an extra UNKNOWN `.`, where the corrected lex stores only the NUMBER |
| JsonLex.StopsRuns | haversine/haversine.c:131-148 | a character that neither starts a number or identifier nor continues one (a definition; AsWrittenAgreesWhenRunsStop is about it) |
| JsonLex.AsWrittenTurnAgrees | haversine/haversine.c:131-154 | on a text whose last character stops runs, one turn of lex as written emits the same token and moves as far as the corrected turn |
| JsonLex.AsWrittenAgreesWhenRunsStop | haversine/haversine.c:92-171 | on a text whose last character stops runs, lex as written stores exactly the tokens of the corrected lex |
| JsonLex.ReadToken | haversine/haversine.c:93-165 | one turn of the C loop makes ScanOne's token and advances by its corrected width (at the end of the text the C advances one less; see Left out) |
| JsonLex.Append | haversine/haversine.c:95-170 | the appended array holds the old tokens and the new one, and after a doubling tokens_len < tokens_cap still holds |
| JsonLex.LexText | haversine/haversine.c:86-175 | the token array the corrected lex builds is Lex of the text, inside a capacity reached by doubling from 1024 (see Left out for the C at the end of the text) |
| JsonLex.LexTurn | haversine/haversine.c:92-171 | one turn of the outer loop keeps the tokens so far followed by the tokens of the unread text equal to the tokens of the whole text |
| JsonLex.TurnFits | haversine/haversine.c:132-138 | the lexeme of the current turn fits the 128-character buffer whenever every lexeme of the text does |
| JsonParse.Assign | haversine/haversine.c:232-240 | the strcmp chain: a value is stored under the field its key names, and any other key leaves the pair unchanged (a definition; FillIsLatest is about it) |
| JsonParse.NumberAt | haversine/haversine.c:217-218 | the value is read exactly when a COLON is followed by a NUMBER, and is that number's lexeme; otherwise the error names the first token that is not of its kind |
| JsonParse.Link | haversine/haversine.c:241-259 | a further entry of a pair object takes the tokens up to and including its NUMBER |
| JsonParse.Block | haversine/haversine.c:223-297 | a successful block takes the IDENT and the 21 tokens after it, so the token the loop reads next (i + 22) is inside the array; BlockFields gives the fields |
| JsonParse.Step | haversine/haversine.c:195-311 | every turn that does not fail moves the token index forward, within the array |
| JsonParse.Close | haversine/haversine.c:206-211 | a closer pops its own opener, and fails on an empty stack or on any other opener (a definition; CloserPopsItsOpener is about it) |
| JsonParse.Run | haversine/haversine.c:195-314 | the loop from a state up to END, where the stack must be empty as the final assert demands (a definition; RunStep and the Run lemmas are about it) |
| JsonParse.ParseTokens | haversine/haversine.c:181-317 | parse: the loop from index 0 with an empty stack, no pairs and expected 0 (a definition; Parse and GeneratedRoundTrip are about it) |
| JsonParse.CloserPopsItsOpener | haversine/haversine.c:206-211 | `}` and `]` succeed exactly when their own opener is on top, and then they pop it and change nothing else |
| JsonParse.StepKeepsShape | haversine/haversine.c:197-205 | the stack holds only `{`, `[` and `"`, and a quote only ever on top |
| JsonParse.DepthFourAppendsOnePair | haversine/haversine.c:223-304 | an IDENT at depth 4 appends exactly the one pair its block reads and leaves depth 3 |
| JsonParse.OtherTurnsKeepPairs | haversine/haversine.c:195-311 | no other turn changes the pairs |
| JsonParse.FillIsLatest | haversine/haversine.c:232-297 | each field of a pair is the value of the last entry with its key, or 0; other keys are ignored |
| JsonParse.BlockFields | haversine/haversine.c:223-297 | the pair a block returns is filled from its four key/value entries in order |
| JsonParse.AppendPair | haversine/haversine.c:299-304 | the appended pairs array holds the old pairs and the new one, and pairs_len < pairs_cap still holds |
| JsonParse.OpenerTurn | haversine/haversine.c:197-205 | the C case for `{ [ "` pops a quote on top or pushes, as Step says, or fails as Step says |
| JsonParse.CloserTurn | haversine/haversine.c:206-211 | the C cases for `}` and `]` do what Step says, failing with it |
| JsonParse.KeyTurn | haversine/haversine.c:212-304 | the C IDENT case, with its reads, pops and pushes, ends in the state Step gives, or fails with Step |
| JsonParse.Turn | haversine/haversine.c:196-311 | one pass through the switch either fails as the loop over the tokens fails, or leaves a state from which the loop gives the same result, with the token index moved forward |
| JsonParse.Parse | haversine/haversine.c:181-317 | parse returns ParseTokens of the tokens, and the pairs are the first pairs_len entries of an array whose capacity was reached by doubling |
| JsonParse.RunStep | haversine/haversine.c:195-312 | the loop from a state is one turn and then the loop from the next state |
| JsonParse.RunPush | haversine/haversine.c:202-204 | an opener with no quote on top is pushed and the loop goes on from there |
| JsonParse.RunPopQuote | haversine/haversine.c:200-201 | an opener read while a quote is on top pops that quote |
| JsonParse.RunClose | haversine/haversine.c:206-211 | a closer whose own opener is on top pops it |
| JsonParse.RunPass | haversine/haversine.c:307-311 | a comma, a colon, or the key "pairs" at depth 2 only moves on to the next token |
| JsonParse.RunBlock | haversine/haversine.c:223-304 | a key at depth 4 whose block reads a pair stores that pair, pops the quote and skips the 22 tokens of the block |
| JsonParse.PairTokens | haversine/generator.c:62 | a generated pair object is 25 tokens |
| JsonParse.AsPairs | haversine/generator.c:62 | one pair per generated object, in order, with the printed x0, y0, x1, y1 put into the pair's fields of those names, as the store at haversine.c:299 keeps them |
| JsonParse.HoldsAtIndex | haversine/haversine.c:194-311 | tokens placed at position i are read there by index |
| JsonParse.HoldsAtSplit | haversine/haversine.c:194-311 | consecutive runs of tokens are read one after the other |
| JsonParse.PairAtHolds | haversine/generator.c:62 | a generated pair object gives each of its 25 tokens in place |
| JsonParse.BlockOfPair | haversine/haversine.c:223-297 | the block of a generated pair object gives back its four lexemes in their fields |
| JsonParse.RunPair | haversine/haversine.c:195-312 | parsing one generated pair object inside the array appends its pair |
| JsonParse.RunOpenPair | haversine/haversine.c:197-205 | the opening `{` and first `"` of a pair object bring the stack to depth 4 |
| JsonParse.RunPairBlock | haversine/haversine.c:223-304 | the key at depth 4 reads the whole object body and appends the pair |
| JsonParse.RunClosePair | haversine/haversine.c:206-208 | the closing `}` of a pair object brings the stack back to depth 2 |
| JsonParse.RunComma | haversine/haversine.c:307-311 | the comma between two pair objects changes only the token index |
| JsonParse.RunPairComma | haversine/haversine.c:195-312 | a pair object followed by its comma appends its one pair and moves past 26 tokens |
| JsonParse.RunLastPair | haversine/haversine.c:299 | the last pair object, with no comma after it, appends its one pair |
| JsonParse.PairsAtSplit | haversine/generator.c:51-64 | every pair object but the last is followed by a comma, and the other objects follow 26 tokens on |
| JsonParse.PairsJoin | haversine/haversine.c:299 | appending the first pair and then the pairs of the rest appends the pairs of all the objects, in order |
| JsonParse.RunPairs | haversine/haversine.c:195-312 | the comma-separated pair objects append their pairs in order |
| JsonParse.RunHead | haversine/haversine.c:197-222 | the opening `{"pairs": [` leaves `{` and `[` on the stack |
| JsonParse.RunHeadRest | haversine/haversine.c:197-205 | after the "pairs" key its quote is popped and `[` pushed |
| JsonParse.RunTail | haversine/haversine.c:206-219 | `], "expected": E}` stores E and empties the stack at END |
| JsonParse.RunTailRest | haversine/haversine.c:212-219 | the "expected" key reads its number and pops its quote |
| JsonParse.GenTokensLayout | haversine/generator.c:129-141 | where the pairs and the closing part sit in a generated token array |
| JsonParse.HeadAt | haversine/generator.c:129 | a generated file begins with the tokens of `{"pairs": [` |
| JsonParse.TailAt | haversine/generator.c:141 | a generated file ends with the tokens of `], "expected": E}` and then END |
| JsonParse.GeneratedRoundTrip | haversine/haversine.c:181-317 | parse of the generator's token layout returns every pair in order and the expected value |
| Generator.PairText | haversine/generator.c:62 | one pair object as the fprintf prints it, followed by its separator and the rest of the file (a definition; PairScan is about it) |
| Generator.PairsText | haversine/generator.c:51-64 | the pair objects in order, each followed by `,` and the last by ` ` (a definition; PairsScan is about it) |
| Generator.GenText | haversine/generator.c:129-141 | the whole generated file, `{"pairs": [` the pairs `], "expected": E}` (a definition; GenTextScans and GeneratedFileParses are about it) |
| Generator.CommaSpaceScan | haversine/generator.c:62 | `, ` lexes to one COMMA |
| Generator.ColonSpaceScan | haversine/generator.c:62 | `: ` lexes to one COLON |
| Generator.CloseKeyScan | haversine/generator.c:62 | the closing quote, colon and space of a key lex to DQUOTE COLON |
| Generator.OpenKeyScan | haversine/generator.c:62 | the opening quote of a key lexes to DQUOTE |
| Generator.KeyScan | haversine/generator.c:62 | a quoted key with its colon lexes to DQUOTE IDENT DQUOTE COLON |
| Generator.FieldScan | haversine/generator.c:62 | a key and a printed number lex to the key's tokens and one NUMBER |
| Generator.FieldCommaScan | haversine/generator.c:62 | a field and its separator lex to the field's tokens and a COMMA |
| Generator.LastFieldScan | haversine/generator.c:62 | the last field and `}` lex to its tokens and RSQUIRLY |
| Generator.KeysShaped | haversine/generator.c:62 | the printed keys are identifiers |
| Generator.PairTokensByField | haversine/generator.c:62 | a pair object's tokens are its four fields in order |
| Generator.PairScan | haversine/generator.c:62 | a printed pair object lexes to its 25 tokens, whatever follows it |
| Generator.PrintedPairsTail | haversine/generator.c:51-64 | every pair in the list is printable |
| Generator.PairsTokensCons | haversine/generator.c:51-64 | the pairs are separated by commas |
| Generator.PairsStep | haversine/generator.c:51-64 | a pair object, a comma and the rest lex to their tokens in order |
| Generator.PairsScan | haversine/generator.c:51-64 | the printed pair objects and their separators lex to the comma-separated pair tokens |
| Generator.FileTokensEnd | haversine/generator.c:129-141 | the file's tokens and END are the token array parse reads |
| Generator.BracketCommaScan | haversine/generator.c:141 | `], ` lexes to RBRACKET COMMA |
| Generator.TailScan | haversine/generator.c:141 | `], "expected": E}` lexes to its eight tokens |
| Generator.HeadScan | haversine/generator.c:129 | `{"pairs": [` lexes to its six tokens |
| Generator.GenTextScans | haversine/haversine.c:92-171 | the outer loop of the corrected lex turns a generated file into its tokens |
| Generator.GenTextLexes | haversine/haversine.c:79-179 | the corrected lex of a generated file is exactly the token array the parse round trip reads |
| Generator.PairsTextLast | haversine/generator.c:51-64 | the pair objects followed by a text end as that text does |
| Generator.GenTextLast | haversine/generator.c:141 | a generated file ends in `}` |
| Generator.GenTextAsWritten | haversine/haversine.c:92-171 | lex as written, the loop main calls, stores the same tokens as the corrected lex on a generated file, because the file ends in `}` |
| Generator.ByteTextAppend | haversine/haversine.c:92 | text made of bytes below 0xFF stays so when joined |
| Generator.KeyBytes | haversine/haversine.c:92 | a printed key has no 0xFF byte |
| Generator.FieldBytes | haversine/haversine.c:92 | a printed field has no 0xFF byte |
| Generator.PairBytes | haversine/haversine.c:92 | a printed pair object has no 0xFF byte |
| Generator.PairsBytes | haversine/haversine.c:92 | the printed pairs have no 0xFF byte |
| Generator.AllFitAppend | haversine/haversine.c:133-146 | lexemes that fit the buffer still fit when token runs are joined |
| Generator.PairFits | haversine/haversine.c:133-146 | the lexemes of a printed pair fit the 128-byte buffer |
| Generator.PairsFit | haversine/haversine.c:133-146 | the lexemes of the printed pairs fit the buffer |
| Generator.FileFits | haversine/haversine.c:133-146 | every lexeme of a generated file fits the buffer |
| Generator.GeneratedFileFits | haversine/haversine.c:86-175 | a generated file meets LexText's conditions (no 0xFF byte, lexemes of at most 127 characters), and lex gives its token array |
| Generator.GeneratedFileParses | haversine/haversine.c:325-326 | lex then parse of a generated file returns every pair in order, with its four lexemes in its fields, and the expected value; this holds for the corrected lex and for the tokens lex as written stores |
| Prof.Frame | haversine/prof.h:190-195 | the frame PROF_BANDWIDTH pushes: site index, start time, label and byte count, all other fields zero (a definition; PushRecordsFrame is about it) |
| Prof.Add64 | haversine/prof.h:110-111 | u64 addition wraps modulo 2^64 and is exact when no overflow occurs |
| Prof.Sub64 | haversine/prof.h:97 | u64 end - start is the difference, plus 2^64 when the timer went backwards |
| Prof.WellFormed | haversine/prof.h:61-80 | the invariant: both tables have their fixed sizes, every frame names a site 1..PROF_MAX_CONTEXTS-1, each stack_count equals its site's number of frames, and the u64 fields hold u64 values (a definition; the WellFormed lemmas are about it) |
| Prof.Initial | haversine/prof.h:72-80 | the zero-initialised tables and an empty stack (a definition; InitialWellFormed is about it) |
| Prof.Pushed | haversine/prof.h:187-195 | the push as values: the site's stack_count goes up by one and the new frame goes on top (a definition; PushRecordsFrame and PushedWellFormed are about it) |
| Prof.Popped | haversine/prof.h:82-119 | the pop as values: the top frame is taken off and its site's stack_count goes down; when that reaches zero the site is charged and the enclosing site gets the child time (a definition; PopRecursing, PopClosesSite and PopChargesParent are about it) |
| Prof.Occurrences | haversine/prof.h:74-77 | a site has no more frames than the stack has |
| Prof.OccurrencesPush | haversine/prof.h:189-190 | pushing a frame adds one frame to its own site only |
| Prof.InitialWellFormed | haversine/prof.h:72-80 | the zeroed tables with sp = -1 meet the invariant |
| Prof.StackCountBounded | haversine/prof.h:68-75 | a site's stack_count never exceeds the stack depth, so the u32 counter cannot wrap |
| Prof.PushedWellFormed | haversine/prof.h:187-195 | push keeps the invariant for sites 1..PROF_MAX_CONTEXTS-1 |
| Prof.PushRecordsFrame | haversine/prof.h:187-195 | push adds one frame holding the site, start time, label and bytes, and raises only that site's stack_count |
| Prof.PopDefined | haversine/prof.h:95-100 | with a frame open, the popped site is in range and its stack_count is positive |
| Prof.PoppedWellFormed | haversine/prof.h:82-119 | pop keeps the invariant |
| Prof.PopRecursing | haversine/prof.h:100-102 | a pop that leaves stack_count nonzero changes only that stack_count and the stack |
| Prof.PopClosesSite | haversine/prof.h:102-111 | a pop that brings stack_count to 0 copies index, start, label and bytes, adds end - start to duration and one to count |
| Prof.ParentIsOtherSite | haversine/prof.h:100-116 | when stack_count reaches 0, the enclosing frame belongs to another site |
| Prof.PopChargesParent | haversine/prof.h:113-117 | that pop adds the same end - start to the enclosing frame's site's child_duration and changes no other site |
| Prof.RecursivePushPopRestores | haversine/prof.h:82-195 | a block opened and closed inside an open block of the same site leaves the profiler exactly as it was |
| Prof.OuterPushPopCharges | haversine/prof.h:82-195 | a block opened and closed at a site with no open frames counts one call and its time for the site, and charges that time to the enclosing site only |
| Prof.Profiler.Snapshot | haversine/prof.h:72-80 | the two global arrays as values: all of prof_contexts and items[0..sp] (a definition) |
| Prof.Profiler.Valid | haversine/prof.h:61-80 | the arrays have their fixed sizes, -1 <= sp < PROF_MAX_CONTEXT_STACK, and the snapshot is well formed (a definition; Begin and End keep it) |
| Prof.Profiler.constructor | haversine/prof.h:72-80 | the tables start zeroed with an empty stack |
| Prof.Profiler.Begin | haversine/prof.h:187-195 | the in-place push raises sp by one, keeps the invariant and reaches Pushed of the old state |
| Prof.Profiler.End | haversine/prof.h:82-119 | the in-place pop lowers sp by one, keeps the invariant and reaches Popped of the old state |

## Left out

- Floating point: `haversine`, `deg2rad`, the averaging in `main` and
  `atof`. Numbers are kept as their lexemes.
- haversine/generator.c's random data, float arithmetic and file output are
  not modelled. Only the layout of the text its fprintf calls write is used,
  and each printed number is an arbitrary lexeme of number shape.
- Generator.GenText: with no pairs, generator.c:66 divides 0 by 0 and `%f`
  prints `nan` or `-nan`, which is not a number lexeme. GenText with an empty
  list and a number-shaped expected value is a layout the generator never
  writes. The round-trip lemmas still hold for it, so they are not restricted
  to non-empty lists.
- File and stream plumbing: fopen/fgetc/fseek/fclose, printf, and the
  argument checks of the three `main`s.
  - Inputs are in-memory sequences.
  - The sim8086 header line is a fixed prefix built from the file name.
- Memory management: malloc/realloc/free. The growable arrays are modelled
  by doubling capacity only. Freeing identifiers and the pairs array is
  left out.
- Profiler timing: rdtsc, gettimeofday, `prof_estimate_cpu_freq` and the
  report of `prof_end_timing`. The timer read is the `now` parameter.
- The cleanup-attribute and `__COUNTER__` machinery is left out. `Begin` and
  `End` are explicit calls, and the site index is a parameter in
  1..PROF_MAX_CONTEXTS-1. The unused `u32 *index` argument of
  `prof_end_time_block` is dropped.
- The `label` pointer is modelled as the label text. A NULL label is `""`.
- JsonLex.LexText: requires text with no 0xFF byte and lexemes of at most
  127 characters. In the C, a 0xFF byte compares equal to EOF, and a longer
  lexeme overflows the 128-byte buffer.
- JsonLex.ScanOne: models lex with the end-of-file reread corrected (see
  Findings). The turn as written is ScanOneAsWritten.
- JsonLex.ScanLexeme: at the end of the file it returns the position after
  the run, where the C's fseek puts the stream back on the run's last
  character. The C's position is ScanOneAsWritten's width.
- JsonLex.ReadToken: advances by the corrected width. At the end of the
  file, the C's number and identifier cases advance one character less, as
  ScanOneAsWritten says.
- JsonLex.LexText: returns Lex of the text even when the text ends in a
  digit, a letter or `-`, where the C never returns (AsWrittenNeverEnds). For
  a text the C does finish, its tokens are ScanAsWritten, which can hold one
  extra token at the end (AsWrittenRereadsDot). When the last character stops
  runs, as in a generated file, they are exactly Scan's.
- JsonParse.Step: pushing onto a full 1024-entry stack, and popping an empty
  one, are undefined behaviour in the C. They are modelled as the errors
  `Overflow` and `Underflow`.
- The C `assert`s are taken as compiled in. A build with NDEBUG, where
  they vanish, is not modelled.
- JsonParse.Block: the pushes and pops of the inner quotes of a pair object
  are modelled by their net effect, a depth of 4 before and 3 after.
- Prof.Profiler.Begin: requires room on the stack (sp + 1 < 4096). The C
  does not check this and would write past the array.
- `u32` widths of `tokens_len` and `tokens_cap` in lex, and of `pairs_len`,
  `pairs_cap` and `sp` in parse, are unbounded here. Their wrap-around at
  2^32 is not modelled. The doublings `tokens_cap <<= 1`
  (haversine.c:168) and `pairs_cap <<= 1` (haversine.c:302) reach 0 after
  22 doublings from 1024; the model keeps doubling.
- Characters above 0x7F: `c` is a plain signed `char` (haversine.c:90), so
  bytes 0x80 to 0xFE reach isdigit, isalnum and isspace as negative values,
  which ISO C leaves undefined. The model classifies them as none of the
  three, so each is an UNKNOWN token, as glibc's tables do.

## Findings

| source | as written | input that shows it | evidently intended | confidence | as-written member | corrected member |
|---|---|---|---|---|---|---|
| haversine/haversine.c:135-138 | when a number or identifier runs to the end of the file, the fgetc that returns EOF does not advance the file, and the fseek(-1) then backs up onto the lexeme's last character, which is read again | the text `5`: NUMBER `5` is emitted and the position returns to 0, so lex emits it forever. The same holds for any text whose last character is a digit, a letter or `-` (AsWrittenNeverEnds). A text ending in `1.` does end, but with an extra UNKNOWN `.` token (AsWrittenRereadsDot) | the character that stops the run is given back only when there is one; at end of file nothing is given back | not executed | JsonLex.AsWrittenStalls | JsonLex.ScanOne |
