/**
 * The files haversine/generator.c writes, as text, and what lex and parse
 * make of them. Each coordinate and the expected average are printed with
 * "%f"; here they are lexemes of the shape lex reads as one number.
 */
module Generator {
  import opened Seqs
  import opened JsonLex
  import opened JsonParse

  /** A number as printed by "%f": lex reads it as one NUMBER that fits the scan buffer. */
  predicate Printed(x: string)
  {
    NumberShaped(x) && |x| <= 127
  }

  predicate PrintedPair(c: Coords)
  {
    Printed(c.x0) && Printed(c.y0) && Printed(c.x1) && Printed(c.y1)
  }

  predicate PrintedPairs(cs: seq<Coords>)
  {
    forall k :: 0 <= k < |cs| ==> PrintedPair(cs[k])
  }

  /** "KEY": and the space before the value. */
  function Key(k: string): string
  {
    "\"" + k + "\": "
  }

  /**
   * One pair object, as the fprintf of writeUniformPairs and
   * writeClusterPairs prints it ({"x0": X0, "y0": Y0, "x1": X1, "y1": Y1}),
   * followed by the text t.
   */
  function PairText(c: Coords, t: string): string
  {
    "{" + (Key("x0") + (c.x0 + (", " + (Key("y0") + (c.y0 + (", " + (Key("x1") + (c.x1
      + (", " + (Key("y1") + (c.y1 + ("}" + t))))))))))))
  }

  /**
   * The pair objects, each followed by its separator (',' and, after the
   * last one, ' '), followed by the text t.
   */
  function PairsText(cs: seq<Coords>, t: string): string
  {
    if cs == [] then t else PairText(cs[0], (if |cs| == 1 then " " else ",") + PairsText(cs[1..], t))
  }

  /** The whole file: {"pairs": [ the pairs ], "expected": E}. */
  function GenText(cs: seq<Coords>, e: string): string
  {
    "{" + (Key("pairs") + ("[" + PairsText(cs, "], " + (Key("expected") + (e + "}")))))
  }

  // What lex makes of the pieces. Each lemma unrolls a few turns of Scan;
  // Cat joins their results without looking inside Scan.

  /** ", " yields one COMMA. */
  lemma CommaSpaceScan(t: seq<char>)
    ensures Scan(", " + t) == [Comma] + Scan(t)
  {
    var u := [' '] + t;
    calc {
      Scan(", " + t);
      { assert ", " + t == [','] + u; }
      Scan([','] + u);
      { PunctuationToken(',', u); }
      [Comma] + Scan(u);
      { SpaceSkipped(' ', t); }
      [Comma] + Scan(t);
    }
  }

  /** ": " yields one COLON. */
  lemma ColonSpaceScan(t: seq<char>)
    ensures Scan(": " + t) == [Colon] + Scan(t)
  {
    var u := [' '] + t;
    calc {
      Scan(": " + t);
      { assert ": " + t == [':'] + u; }
      Scan([':'] + u);
      { PunctuationToken(':', u); }
      [Colon] + Scan(u);
      { SpaceSkipped(' ', t); }
      [Colon] + Scan(t);
    }
  }

  /** The closing quote of a key, its colon and the space yield DQUOTE COLON. */
  lemma CloseKeyScan(t: seq<char>)
    ensures Scan("\": " + t) == [DQuote, Colon] + Scan(t)
  {
    var u := ": " + t;
    calc {
      Scan("\": " + t);
      { assert "\": " + t == ['"'] + u; }
      Scan(['"'] + u);
      { PunctuationToken('"', u); }
      [DQuote] + Scan(u);
      { ColonSpaceScan(t); }
      [DQuote] + ([Colon] + Scan(t));
      { AppendAssoc([DQuote], [Colon], Scan(t)); }
      [DQuote, Colon] + Scan(t);
    }
  }

  lemma OpenKeyScan(k: string, t: seq<char>)
    ensures Scan(Key(k) + t) == [DQuote] + Scan(k + ("\": " + t))
  {
    assert Key(k) + t == ['"'] + (k + ("\": " + t));
    PunctuationToken('"', k + ("\": " + t));
  }

  /** A quoted key, its colon and the space yield DQUOTE IDENT DQUOTE COLON. */
  lemma KeyScan(k: string, t: seq<char>)
    requires IdentShaped(k)
    ensures Scan(Key(k) + t) == [DQuote, Ident(k), DQuote, Colon] + Scan(t)
  {
    var r := "\": " + t;
    OpenKeyScan(k, t);
    IdentLexeme(k, r);
    CloseKeyScan(t);
    Cat(Scan(k + r), Scan(r), Scan(t), [Ident(k)], [DQuote, Colon], [Ident(k), DQuote, Colon]);
    Cat(Scan(Key(k) + t), Scan(k + r), Scan(t), [DQuote], [Ident(k), DQuote, Colon], [DQuote, Ident(k), DQuote, Colon]);
  }

  /** The tokens of one field: its key and its NUMBER. */
  function FieldTokens(k: string, x: string): seq<Token>
  {
    [DQuote, Ident(k), DQuote, Colon, Number(x)]
  }

  /** A key and a printed value followed by a non-digit yield the field's tokens. */
  lemma FieldScan(k: string, x: string, t: seq<char>)
    requires IdentShaped(k) && NumberShaped(x)
    requires t != [] && !Continues(NumberRun, t[0])
    ensures Scan(Key(k) + (x + t)) == FieldTokens(k, x) + Scan(t)
  {
    KeyScan(k, x + t);
    NumberLexeme(x, t);
    Cat(Scan(Key(k) + (x + t)), Scan(x + t), Scan(t), [DQuote, Ident(k), DQuote, Colon], [Number(x)], FieldTokens(k, x));
  }

  /** A field followed by ", " yields the field's tokens and a COMMA. */
  lemma FieldCommaScan(k: string, x: string, t: seq<char>)
    requires IdentShaped(k) && NumberShaped(x)
    ensures Scan(Key(k) + (x + (", " + t))) == (FieldTokens(k, x) + [Comma]) + Scan(t)
  {
    FieldScan(k, x, ", " + t);
    CommaSpaceScan(t);
    Cat(Scan(Key(k) + (x + (", " + t))), Scan(", " + t), Scan(t), FieldTokens(k, x), [Comma], FieldTokens(k, x) + [Comma]);
  }

  /** The last field and the closing brace yield the field's tokens and RSQUIRLY. */
  lemma LastFieldScan(k: string, x: string, t: seq<char>)
    requires IdentShaped(k) && NumberShaped(x)
    ensures Scan(Key(k) + (x + ("}" + t))) == (FieldTokens(k, x) + [RSquirly]) + Scan(t)
  {
    assert "}" + t == ['}'] + t;
    FieldScan(k, x, "}" + t);
    PunctuationToken('}', t);
    Cat(Scan(Key(k) + (x + ("}" + t))), Scan("}" + t), Scan(t), FieldTokens(k, x), [RSquirly], FieldTokens(k, x) + [RSquirly]);
  }

  /** The keys the generator prints are identifiers. */
  lemma KeysShaped()
    ensures IdentShaped("x0") && IdentShaped("y0") && IdentShaped("x1") && IdentShaped("y1")
    ensures IdentShaped("pairs") && IdentShaped("expected")
  {
  }

  /** PairTokens, grouped as the opening brace and its four fields. */
  lemma PairTokensByField(c: Coords)
    ensures PairTokens(c) == [LSquirly] + ((FieldTokens("x0", c.x0) + [Comma]) + ((FieldTokens("y0", c.y0) + [Comma])
      + ((FieldTokens("x1", c.x1) + [Comma]) + (FieldTokens("y1", c.y1) + [RSquirly]))))
  {
  }

  /** One pair object yields the 25 tokens of PairTokens, whatever follows it. */
  lemma PairScan(c: Coords, t: seq<char>)
    requires PrintedPair(c)
    ensures Scan(PairText(c, t)) == PairTokens(c) + Scan(t)
  {
    var a4 := Key("y1") + (c.y1 + ("}" + t));
    var a3 := Key("x1") + (c.x1 + (", " + a4));
    var a2 := Key("y0") + (c.y0 + (", " + a3));
    var a1 := Key("x0") + (c.x0 + (", " + a2));
    assert PairText(c, t) == ['{'] + a1;
    KeysShaped();
    PunctuationToken('{', a1);
    FieldCommaScan("x0", c.x0, a2);
    FieldCommaScan("y0", c.y0, a3);
    FieldCommaScan("x1", c.x1, a4);
    LastFieldScan("y1", c.y1, t);
    var g0 := FieldTokens("x0", c.x0) + [Comma];
    var g1 := FieldTokens("y0", c.y0) + [Comma];
    var g2 := FieldTokens("x1", c.x1) + [Comma];
    var g3 := FieldTokens("y1", c.y1) + [RSquirly];
    Cat(Scan(a3), Scan(a4), Scan(t), g2, g3, g2 + g3);
    Cat(Scan(a2), Scan(a3), Scan(t), g1, g2 + g3, g1 + (g2 + g3));
    Cat(Scan(a1), Scan(a2), Scan(t), g0, g1 + (g2 + g3), g0 + (g1 + (g2 + g3)));
    PairTokensByField(c);
    Cat(Scan(PairText(c, t)), Scan(a1), Scan(t), [LSquirly], g0 + (g1 + (g2 + g3)), PairTokens(c));
  }

  lemma PrintedPairsTail(cs: seq<Coords>)
    requires PrintedPairs(cs) && cs != []
    ensures PrintedPair(cs[0]) && PrintedPairs(cs[1..])
  {
    forall k | 0 <= k < |cs[1..]| ensures PrintedPair(cs[1..][k]) {
      assert cs[1..][k] == cs[k + 1];
    }
  }

  lemma PairsTokensCons(cs: seq<Coords>)
    requires |cs| > 1
    ensures PairsTokens(cs) == PairTokens(cs[0]) + ([Comma] + PairsTokens(cs[1..]))
  {
  }

  /** A pair object, a comma and the rest of the pairs. */
  lemma PairsStep(cs: seq<Coords>, t: seq<char>)
    requires |cs| > 1 && PrintedPair(cs[0])
    requires Scan(PairsText(cs[1..], t)) == PairsTokens(cs[1..]) + Scan(t)
    ensures Scan(PairsText(cs, t)) == PairsTokens(cs) + Scan(t)
  {
    var rest := PairsText(cs[1..], t);
    calc {
      Scan(PairsText(cs, t));
      { assert PairsText(cs, t) == PairText(cs[0], [','] + rest); }
      Scan(PairText(cs[0], [','] + rest));
      { PairScan(cs[0], [','] + rest); }
      PairTokens(cs[0]) + Scan([','] + rest);
      { PunctuationToken(',', rest); }
      PairTokens(cs[0]) + ([Comma] + Scan(rest));
      PairTokens(cs[0]) + ([Comma] + (PairsTokens(cs[1..]) + Scan(t)));
      { AppendAssoc(PairTokens(cs[0]), [Comma] + PairsTokens(cs[1..]), Scan(t));
        AppendAssoc([Comma], PairsTokens(cs[1..]), Scan(t)); }
      (PairTokens(cs[0]) + ([Comma] + PairsTokens(cs[1..]))) + Scan(t);
      { PairsTokensCons(cs); }
      PairsTokens(cs) + Scan(t);
    }
  }

  /** The pair objects and their separators yield PairsTokens. */
  lemma {:induction false} PairsScan(cs: seq<Coords>, t: seq<char>)
    requires PrintedPairs(cs)
    ensures Scan(PairsText(cs, t)) == PairsTokens(cs) + Scan(t)
  {
    if cs == [] {
    } else if |cs| == 1 {
      PrintedPairsTail(cs);
      assert PairsText(cs, t) == PairText(cs[0], [' '] + t);
      PairScan(cs[0], [' '] + t);
      SpaceSkipped(' ', t);
    } else {
      PrintedPairsTail(cs);
      PairsScan(cs[1..], t);
      PairsStep(cs, t);
    }
  }

  /** The tokens of the whole file before the final END. */
  function FileTokens(cs: seq<Coords>, e: string): seq<Token>
  {
    [LSquirly, DQuote, Ident("pairs"), DQuote, Colon, LBracket] + PairsTokens(cs)
    + [RBracket, Comma, DQuote, Ident("expected"), DQuote, Colon, Number(e), RSquirly]
  }

  /** FileTokens and the END token make GenTokens; FileTokens grouped as GenTextLexes meets it. */
  lemma FileTokensEnd(cs: seq<Coords>, e: string)
    ensures FileTokens(cs, e) + [End] == GenTokens(cs, e)
    ensures FileTokens(cs, e) == [LSquirly, DQuote, Ident("pairs"), DQuote, Colon, LBracket]
      + (PairsTokens(cs) + ([RBracket, Comma] + (FieldTokens("expected", e) + [RSquirly])))
  {
  }

  /** "], " yields RBRACKET COMMA. */
  lemma BracketCommaScan(t: seq<char>)
    ensures Scan("], " + t) == [RBracket, Comma] + Scan(t)
  {
    var u := ", " + t;
    calc {
      Scan("], " + t);
      { assert "], " + t == [']'] + u; }
      Scan([']'] + u);
      { PunctuationToken(']', u); }
      [RBracket] + Scan(u);
      { CommaSpaceScan(t); }
      [RBracket] + ([Comma] + Scan(t));
      [RBracket, Comma] + Scan(t);
    }
  }

  /** What follows the pairs, "], " and the expected field, yields its eight tokens. */
  lemma TailScan(e: string)
    requires Printed(e)
    ensures Scan("], " + (Key("expected") + (e + "}"))) == [RBracket, Comma] + (FieldTokens("expected", e) + [RSquirly])
  {
    var r := Key("expected") + (e + "}");
    assert r == Key("expected") + (e + ("}" + []));
    BracketCommaScan(r);
    KeysShaped();
    LastFieldScan("expected", e, []);
  }

  /** The opening of the file, {"pairs": [, yields its six tokens. */
  lemma HeadScan(t: seq<char>)
    ensures Scan("{" + (Key("pairs") + ("[" + t))) == [LSquirly, DQuote, Ident("pairs"), DQuote, Colon, LBracket] + Scan(t)
  {
    var r1 := Key("pairs") + ("[" + t);
    var k := [DQuote, Ident("pairs"), DQuote, Colon];
    calc {
      Scan("{" + r1);
      { assert "{" + r1 == ['{'] + r1; }
      Scan(['{'] + r1);
      { PunctuationToken('{', r1); }
      [LSquirly] + Scan(r1);
      { KeysShaped(); KeyScan("pairs", "[" + t); }
      [LSquirly] + (k + Scan("[" + t));
      { assert "[" + t == ['['] + t; PunctuationToken('[', t); }
      [LSquirly] + (k + ([LBracket] + Scan(t)));
      [LSquirly, DQuote, Ident("pairs"), DQuote, Colon, LBracket] + Scan(t);
    }
  }

  /** The outer loop of lex turns a generated file into FileTokens. */
  lemma GenTextScans(cs: seq<Coords>, e: string)
    requires PrintedPairs(cs) && Printed(e)
    ensures Scan(GenText(cs, e)) == FileTokens(cs, e)
  {
    var r3 := "], " + (Key("expected") + (e + "}"));
    var head := [LSquirly, DQuote, Ident("pairs"), DQuote, Colon, LBracket];
    var mid := [RBracket, Comma] + (FieldTokens("expected", e) + [RSquirly]);
    HeadScan(PairsText(cs, r3));
    PairsScan(cs, r3);
    TailScan(e);
    FileTokensEnd(cs, e);
    Cat(Scan(PairsText(cs, r3)), Scan(r3), [], PairsTokens(cs), mid, PairsTokens(cs) + mid);
    Cat(Scan(GenText(cs, e)), Scan(PairsText(cs, r3)), [], head, PairsTokens(cs) + mid, FileTokens(cs, e));
  }

  /** lex turns a generated file into exactly the tokens of GenTokens. */
  lemma GenTextLexes(cs: seq<Coords>, e: string)
    requires PrintedPairs(cs) && Printed(e)
    ensures Lex(GenText(cs, e)) == GenTokens(cs, e)
  {
    GenTextScans(cs, e);
    FileTokensEnd(cs, e);
  }

  // The file ends in `}`, where no run can end, so lex as written reads it
  // as the corrected lex does.

  /** A text ends in the last character of what was appended to it. */
  lemma LastAfter(x: string, t: string)
    requires |t| > 0
    ensures (x + t)[|x + t| - 1] == t[|t| - 1]
  {
  }

  /** A pair object followed by t ends as t does. */
  lemma PairTextLast(c: Coords, t: string)
    requires |t| > 0
    ensures PairText(c, t)[|PairText(c, t)| - 1] == t[|t| - 1]
  {
  }

  /** The pair objects followed by t end as t does. */
  lemma {:induction false} PairsTextLast(cs: seq<Coords>, t: string)
    requires |t| > 0
    ensures PairsText(cs, t)[|PairsText(cs, t)| - 1] == t[|t| - 1]
    decreases |cs|
  {
    if cs != [] {
      var sep: string := if |cs| == 1 then " " else ",";
      PairsTextLast(cs[1..], t);
      LastAfter(sep, PairsText(cs[1..], t));
      PairTextLast(cs[0], sep + PairsText(cs[1..], t));
    }
  }

  /** A generated file ends in `}`. */
  lemma GenTextLast(cs: seq<Coords>, e: string)
    ensures |GenText(cs, e)| > 0 && GenText(cs, e)[|GenText(cs, e)| - 1] == '}'
  {
    var r3 := "], " + (Key("expected") + (e + "}"));
    LastAfter(e, "}");
    LastAfter(Key("expected"), e + "}");
    LastAfter("], ", Key("expected") + (e + "}"));
    PairsTextLast(cs, r3);
    LastAfter("[", PairsText(cs, r3));
    LastAfter(Key("pairs"), "[" + PairsText(cs, r3));
    LastAfter("{", Key("pairs") + ("[" + PairsText(cs, r3)));
  }

  /** lex as written, which main calls, stores the tokens of the corrected lex on a generated file. */
  lemma GenTextAsWritten(cs: seq<Coords>, e: string)
    requires PrintedPairs(cs) && Printed(e)
    ensures GenText(cs, e)[|GenText(cs, e)| - 1] == '}'
    ensures ScanAsWritten(GenText(cs, e)) == Scan(GenText(cs, e)) == FileTokens(cs, e)
  {
    GenTextLast(cs, e);
    AsWrittenAgreesWhenRunsStop(GenText(cs, e));
    GenTextScans(cs, e);
  }

  // The generated file meets the preconditions of LexText.

  lemma ByteTextAppend(a: seq<char>, b: seq<char>)
    requires ByteText(a) && ByteText(b)
    ensures ByteText(a + b)
  {
    forall k | 0 <= k < |a + b| ensures (a + b)[k] < '\U{00FF}' {
      if k >= |a| {
        assert (a + b)[k] == b[k - |a|];
      }
    }
  }

  lemma KeyBytes(k: string)
    requires IdentShaped(k)
    ensures ByteText(Key(k))
  {
    assert ByteText("\"") && ByteText("\": ") && ByteText(k);
    ByteTextAppend("\"", k);
    ByteTextAppend("\"" + k, "\": ");
  }

  /** A key, a printed value, a separator and what follows are bytes below 0xFF. */
  lemma FieldBytes(k: string, x: string, sep: string, t: seq<char>)
    requires IdentShaped(k) && NumberShaped(x) && ByteText(sep) && ByteText(t)
    ensures ByteText(Key(k) + (x + (sep + t)))
  {
    KeyBytes(k);
    assert ByteText(x);
    ByteTextAppend(sep, t);
    ByteTextAppend(x, sep + t);
    ByteTextAppend(Key(k), x + (sep + t));
  }

  lemma PairBytes(c: Coords, t: seq<char>)
    requires PrintedPair(c) && ByteText(t)
    ensures ByteText(PairText(c, t))
  {
    KeysShaped();
    assert ByteText("}") && ByteText(", ") && ByteText("{");
    var a4 := Key("y1") + (c.y1 + ("}" + t));
    FieldBytes("y1", c.y1, "}", t);
    FieldBytes("x1", c.x1, ", ", a4);
    var a3 := Key("x1") + (c.x1 + (", " + a4));
    FieldBytes("y0", c.y0, ", ", a3);
    var a2 := Key("y0") + (c.y0 + (", " + a3));
    FieldBytes("x0", c.x0, ", ", a2);
    ByteTextAppend("{", Key("x0") + (c.x0 + (", " + a2)));
  }

  lemma {:induction false} PairsBytes(cs: seq<Coords>, t: seq<char>)
    requires PrintedPairs(cs) && ByteText(t)
    ensures ByteText(PairsText(cs, t))
  {
    if cs != [] {
      PrintedPairsTail(cs);
      PairsBytes(cs[1..], t);
      var sep := if |cs| == 1 then " " else ",";
      assert ByteText(sep);
      ByteTextAppend(sep, PairsText(cs[1..], t));
      PairBytes(cs[0], sep + PairsText(cs[1..], t));
    }
  }

  predicate AllFit(ts: seq<Token>)
  {
    forall k :: 0 <= k < |ts| ==> Fits(ts[k])
  }

  lemma AllFitAppend(a: seq<Token>, b: seq<Token>)
    requires AllFit(a) && AllFit(b)
    ensures AllFit(a + b)
  {
    forall k | 0 <= k < |a + b| ensures Fits((a + b)[k]) {
      if k >= |a| {
        assert (a + b)[k] == b[k - |a|];
      }
    }
  }

  lemma PairFits(c: Coords)
    requires PrintedPair(c)
    ensures AllFit(PairTokens(c))
  {
  }

  lemma {:induction false} PairsFit(cs: seq<Coords>)
    requires PrintedPairs(cs)
    ensures AllFit(PairsTokens(cs))
  {
    if cs != [] {
      PrintedPairsTail(cs);
      PairFits(cs[0]);
      if |cs| > 1 {
        PairsFit(cs[1..]);
        PairsTokensCons(cs);
        AllFitAppend([Comma], PairsTokens(cs[1..]));
        AllFitAppend(PairTokens(cs[0]), [Comma] + PairsTokens(cs[1..]));
      }
    }
  }

  lemma FileFits(cs: seq<Coords>, e: string)
    requires PrintedPairs(cs) && Printed(e)
    ensures forall t :: t in FileTokens(cs, e) ==> Fits(t)
  {
    PairsFit(cs);
    var head := [LSquirly, DQuote, Ident("pairs"), DQuote, Colon, LBracket];
    var tail := [RBracket, Comma, DQuote, Ident("expected"), DQuote, Colon, Number(e), RSquirly];
    assert AllFit(head) && AllFit(tail);
    AllFitAppend(head, PairsTokens(cs));
    AllFitAppend(head + PairsTokens(cs), tail);
    var f := FileTokens(cs, e);
    forall t | t in f ensures Fits(t) {
      var k :| 0 <= k < |f| && f[k] == t;
    }
  }

  /**
   * A generated file is bytes below 0xFF and every lexeme in it fits the
   * scan buffer, so LexText reads it, and its result is GenTokens.
   */
  lemma GeneratedFileFits(cs: seq<Coords>, e: string)
    requires PrintedPairs(cs) && Printed(e)
    ensures ByteText(GenText(cs, e)) && LexemesFit(GenText(cs, e))
    ensures Lex(GenText(cs, e)) == GenTokens(cs, e)
  {
    KeysShaped();
    var r3 := "], " + (Key("expected") + (e + "}"));
    assert ByteText("], ") && ByteText("}") && ByteText("[") && ByteText("{");
    FieldBytes("expected", e, "}", []);
    assert "}" + [] == "}";
    ByteTextAppend("], ", Key("expected") + (e + "}"));
    PairsBytes(cs, r3);
    ByteTextAppend("[", PairsText(cs, r3));
    KeyBytes("pairs");
    ByteTextAppend(Key("pairs"), "[" + PairsText(cs, r3));
    ByteTextAppend("{", Key("pairs") + ("[" + PairsText(cs, r3)));
    GenTextScans(cs, e);
    FileFits(cs, e);
    GenTextLexes(cs, e);
  }

  /**
   * The generator's output goes through lex and parse unchanged: every pair
   * in order, with the four lexemes in their fields, and the expected
   * average. This holds for the corrected lex and for lex as written.
   */
  lemma GeneratedFileParses(cs: seq<Coords>, e: string)
    requires PrintedPairs(cs) && Printed(e)
    ensures ParseTokens(Lex(GenText(cs, e))) == Ok(JsonInput(AsPairs(cs), Lit(e)))
    ensures GenText(cs, e)[|GenText(cs, e)| - 1] == '}'
    ensures ParseTokens(ScanAsWritten(GenText(cs, e)) + [End]) == Ok(JsonInput(AsPairs(cs), Lit(e)))
  {
    GenTextLexes(cs, e);
    GenTextAsWritten(cs, e);
    GeneratedRoundTrip(cs, e);
  }
}
