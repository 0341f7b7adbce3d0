/**
 * The tokenizer `lex` of haversine/haversine.c. It scans a JSON-like text
 * into punctuation tokens, number and identifier lexemes and unknown
 * characters, and ends the token array with a single END token. The text is
 * an in-memory character sequence; a number keeps its lexeme.
 */
module JsonLex {
  import opened Seqs

  datatype Token =
    | End
    | LSquirly | RSquirly | LBracket | RBracket | DQuote | Comma | Colon
    | Ident(name: string)
    | Number(lexeme: string)
    | Unknown(ch: char)

  // The character classes of <ctype.h> in the C locale.

  predicate IsDigit(c: char) { '0' <= c <= '9' }

  predicate IsAlpha(c: char) { 'a' <= c <= 'z' || 'A' <= c <= 'Z' }

  predicate IsAlnum(c: char) { IsDigit(c) || IsAlpha(c) }

  predicate IsSpace(c: char)
  {
    c == ' ' || c == '\t' || c == '\n' || c == '\U{000B}' || c == '\U{000C}' || c == '\r'
  }

  /** The token of each of the seven punctuation characters. */
  function Punctuation(c: char): Option<Token>
  {
    match c
    case '{' => Some(LSquirly)
    case '}' => Some(RSquirly)
    case '[' => Some(LBracket)
    case ']' => Some(RBracket)
    case '"' => Some(DQuote)
    case ',' => Some(Comma)
    case ':' => Some(Colon)
    case _ => None
  }

  /** The two lexemes built by an inner scanning loop. */
  datatype Run = NumberRun | IdentRun

  /** The characters that continue a lexeme of a run. */
  predicate Continues(r: Run, c: char)
  {
    match r
    case NumberRun => IsDigit(c) || c == '.'
    case IdentRun => IsAlnum(c)
  }

  /** The length of the longest prefix of s whose characters continue r. */
  function RunLength(r: Run, s: seq<char>): (n: nat)
    ensures n <= |s|
    ensures forall k :: 0 <= k < n ==> Continues(r, s[k])
    ensures n < |s| ==> !Continues(r, s[n])
  {
    if s == [] || !Continues(r, s[0]) then 0 else 1 + RunLength(r, s[1..])
  }

  /** What one turn of the outer loop emits and how many characters it takes. */
  datatype Scanned = Scanned(token: Option<Token>, width: nat)

  /**
   * One turn of the outer loop on the unread text s. A digit or '-' starts a
   * number, any other alphanumeric an identifier; the character that stops
   * the run is left unread.
   */
  function ScanOne(s: seq<char>): (r: Scanned)
    requires |s| > 0
    ensures 1 <= r.width <= |s|
    ensures r.token.Some? ==> r.token.value != End
  {
    var c := s[0];
    if Punctuation(c).Some? then Scanned(Punctuation(c), 1)
    else if IsDigit(c) || c == '-' then
      var n := 1 + RunLength(NumberRun, s[1..]);
      Scanned(Some(Number(s[..n])), n)
    else if IsAlnum(c) then
      var n := 1 + RunLength(IdentRun, s[1..]);
      Scanned(Some(Ident(s[..n])), n)
    else if IsSpace(c) then Scanned(None, 1)
    else Scanned(Some(Unknown(c)), 1)
  }

  /** The tokens the outer loop appends for text s, in order. */
  function Scan(s: seq<char>): (ts: seq<Token>)
    ensures forall k :: 0 <= k < |ts| ==> ts[k] != End
    decreases |s|
  {
    if s == [] then []
    else
      var r := ScanOne(s);
      Emit(r.token) + Scan(s[r.width..])
  }

  /** The tokens one turn appends: none or one. */
  function Emit(t: Option<Token>): (ts: seq<Token>)
    ensures |ts| <= 1 && (t.Some? <==> |ts| == 1)
  {
    if t.Some? then [t.value] else []
  }

  /** The token array lex returns: the scanned tokens and one END. */
  function Lex(s: seq<char>): (ts: seq<Token>)
    ensures |ts| > 0 && ts[|ts| - 1] == End
    ensures forall k :: 0 <= k < |ts| - 1 ==> ts[k] != End
  {
    Scan(s) + [End]
  }

  // Preconditions inherited from the C.

  /**
   * The text is made of bytes other than 0xFF: the reading loop compares the
   * byte, as a char, with EOF, and 0xFF would look like the end of the file.
   */
  predicate ByteText(s: seq<char>)
  {
    forall k :: 0 <= k < |s| ==> s[k] < '\U{00FF}'
  }

  /** A lexeme fits, with its terminating NUL, in the 128-byte scan buffer. */
  predicate Fits(t: Token)
  {
    match t
    case Ident(x) => |x| <= 127
    case Number(x) => |x| <= 127
    case _ => true
  }

  predicate LexemesFit(s: seq<char>)
  {
    forall t :: t in Scan(s) ==> Fits(t)
  }

  // The growable array.

  /** The capacities reachable from 1024 by doubling. */
  predicate Capacity(n: nat)
    decreases n
  {
    n == 1024 || (n > 1024 && n % 2 == 0 && Capacity(n / 2))
  }

  lemma CapacityDoubles(n: nat)
    requires Capacity(n)
    ensures Capacity(2 * n)
  {
    assert 2 * n / 2 == n;
  }

  /** The realloc that doubles an array; the first len elements are kept. */
  method Grow<T(0)>(a: array<T>, len: nat) returns (b: array<T>)
    requires len <= a.Length
    ensures fresh(b) && b.Length == 2 * a.Length
    ensures b[..len] == a[..len]
  {
    b := new T[2 * a.Length];
    forall k | 0 <= k < len {
      b[k] := a[k];
    }
  }

  /** Scan, one turn of the loop unrolled. */
  lemma ScanCons(s: seq<char>)
    requires |s| > 0
    ensures Scan(s) == Emit(ScanOne(s).token) + Scan(s[ScanOne(s).width..])
  {
  }

  /** Scan of the unread text from position i, one turn unrolled. */
  lemma ScanAt(s: seq<char>, i: nat)
    requires i < |s|
    ensures i + ScanOne(s[i..]).width <= |s|
    ensures Scan(s[i..]) == Emit(ScanOne(s[i..]).token) + Scan(s[i + ScanOne(s[i..]).width..])
  {
    var rest := s[i..];
    ScanCons(rest);
    assert rest[ScanOne(rest).width..] == s[i + ScanOne(rest).width..];
  }

  /** A character run of length m makes the run at least m long. */
  lemma {:induction false} RunLengthAtLeast(r: Run, s: seq<char>, m: nat)
    requires m <= |s|
    requires forall k :: 0 <= k < m ==> Continues(r, s[k])
    ensures RunLength(r, s) >= m
  {
    if m > 0 {
      RunLengthAtLeast(r, s[1..], m - 1);
    }
  }

  /** A run that is stopped by s[m] (or the end) is exactly m long. */
  lemma RunLengthExactly(r: Run, s: seq<char>, m: nat)
    requires m <= |s|
    requires forall k :: 0 <= k < m ==> Continues(r, s[k])
    requires m < |s| ==> !Continues(r, s[m])
    ensures RunLength(r, s) == m
  {
    RunLengthAtLeast(r, s, m);
  }

  /**
   * The inner scanning loop of lex: from the first character at s[start],
   * copy the run of characters that continue the lexeme into the buffer and
   * stop at the first one that does not (or at the end of the text). That
   * character is left for the outer loop to read again.
   */
  method ScanLexeme(s: seq<char>, start: nat, r: Run) returns (lexeme: string, next: nat)
    requires start < |s|
    requires 1 + RunLength(r, s[start + 1..]) <= 127
    ensures next == start + 1 + RunLength(r, s[start + 1..])
    ensures lexeme == s[start..next]
  {
    var buf := new char[128];
    var bi := 0;
    buf[bi] := s[start];
    bi := bi + 1;
    var i := start + 1;
    ghost var t := s[start + 1..];
    ghost var run := RunLength(r, t);
    while i < |s| && Continues(r, s[i])
      invariant start + 1 <= i <= start + 1 + run
      invariant bi == i - start
      invariant buf[..bi] == s[start..i]
      decreases |s| - i
    {
      assert s[i] == t[i - (start + 1)];
      ghost var copied := buf[..bi];
      buf[bi] := s[i];
      assert buf[..bi + 1] == copied + [s[i]];
      assert s[start..i + 1] == s[start..i] + [s[i]] by {
        assert s[start..i + 1][..i - start] == s[start..i];
      }
      bi := bi + 1;
      i := i + 1;
    }
    if i < |s| {
      assert s[i] == t[i - (start + 1)];
    }
    lexeme := buf[..bi];
    next := i;
  }

  // What each character class yields.

  /** Each of the seven punctuation characters yields one token of its own kind. */
  lemma PunctuationToken(c: char, t: seq<char>)
    requires Punctuation(c).Some?
    ensures Scan([c] + t) == [Punctuation(c).value] + Scan(t)
  {
    ScanCons([c] + t);
    assert ([c] + t)[1..] == t;
  }

  /** Whitespace yields no token. */
  lemma SpaceSkipped(c: char, t: seq<char>)
    requires IsSpace(c)
    ensures Scan([c] + t) == Scan(t)
  {
    var s := [c] + t;
    assert s[0] == c && s[1..] == t;
    assert Punctuation(c).None? && !IsDigit(c) && c != '-' && !IsAlnum(c);
    assert ScanOne(s) == Scanned(None, 1);
    ScanCons(s);
  }

  /** Any other character that starts no lexeme yields an UNKNOWN token carrying it. */
  lemma UnknownToken(c: char, t: seq<char>)
    requires Punctuation(c).None? && !IsAlnum(c) && c != '-' && !IsSpace(c)
    ensures Scan([c] + t) == [Unknown(c)] + Scan(t)
  {
    ScanCons([c] + t);
    assert ([c] + t)[1..] == t;
  }

  /** A number lexeme: a digit or '-' followed by digits and '.'. */
  predicate NumberShaped(x: string)
  {
    |x| > 0 && (IsDigit(x[0]) || x[0] == '-')
    && forall k :: 1 <= k < |x| ==> Continues(NumberRun, x[k])
  }

  /** An identifier lexeme: a letter followed by alphanumerics. */
  predicate IdentShaped(x: string)
  {
    |x| > 0 && IsAlpha(x[0]) && forall k :: 1 <= k < |x| ==> Continues(IdentRun, x[k])
  }

  /**
   * Every number or identifier ScanOne emits is the maximal run of its
   * kind: it is shaped as above, and the character after it (which the
   * next turn reads again) could not have continued it. An identifier never
   * starts with a digit, because the number branch is tried first.
   */
  lemma ScanOneMaximal(s: seq<char>)
    requires |s| > 0
    ensures var r := ScanOne(s);
      r.token.Some? && (r.token.value.Number? || r.token.value.Ident?) ==>
        var x := if r.token.value.Number? then r.token.value.lexeme else r.token.value.name;
        x == s[..r.width]
        && (r.token.value.Number? ==> NumberShaped(x) && (r.width < |s| ==> !Continues(NumberRun, s[r.width])))
        && (r.token.value.Ident? ==> IdentShaped(x) && (r.width < |s| ==> !Continues(IdentRun, s[r.width])))
  {
    var r := ScanOne(s);
    if r.token.Some? && (r.token.value.Number? || r.token.value.Ident?) {
      var run := if r.token.value.Number? then NumberRun else IdentRun;
      var t := s[1..];
      assert forall k :: 1 <= k < r.width ==> s[k] == t[k - 1];
      if r.width < |s| {
        assert s[r.width] == t[r.width - 1];
      }
    }
  }

  /** A run over x + t where t cannot continue it has the length of the run over x. */
  lemma {:induction false} RunLengthAppend(r: Run, x: seq<char>, t: seq<char>)
    requires t == [] || !Continues(r, t[0])
    ensures RunLength(r, x + t) == if RunLength(r, x) == |x| then |x| else RunLength(r, x)
  {
    if x != [] && Continues(r, x[0]) {
      assert (x + t)[1..] == x[1..] + t;
      RunLengthAppend(r, x[1..], t);
    } else if x == [] {
      assert x + t == t;
    }
  }

  /**
   * A whole number lexeme followed by a character that cannot continue it
   * (or by the end of the text) yields exactly one NUMBER token.
   */
  lemma NumberLexeme(x: string, t: seq<char>)
    requires NumberShaped(x)
    requires t == [] || !Continues(NumberRun, t[0])
    ensures Scan(x + t) == [Number(x)] + Scan(t)
  {
    var s := x + t;
    assert s[1..] == x[1..] + t;
    RunLengthExactly(NumberRun, x[1..], |x| - 1);
    RunLengthAppend(NumberRun, x[1..], t);
    assert s[..|x|] == x && s[|x|..] == t;
    assert Punctuation(s[0]).None?;
    assert ScanOne(s) == Scanned(Some(Number(x)), |x|);
    ScanCons(s);
  }

  /**
   * A whole identifier followed by a character that is not alphanumeric (or
   * by the end of the text) yields exactly one IDENT token.
   */
  lemma IdentLexeme(x: string, t: seq<char>)
    requires IdentShaped(x)
    requires t == [] || !Continues(IdentRun, t[0])
    ensures Scan(x + t) == [Ident(x)] + Scan(t)
  {
    var s := x + t;
    assert s[1..] == x[1..] + t;
    RunLengthExactly(IdentRun, x[1..], |x| - 1);
    RunLengthAppend(IdentRun, x[1..], t);
    assert s[..|x|] == x && s[|x|..] == t;
    AlphaStartsIdent(s[0]);
    assert ScanOne(s) == Scanned(Some(Ident(x)), |x|);
    ScanCons(s);
  }

  /** A letter is no punctuation, digit or '-', so it starts an identifier. */
  lemma AlphaStartsIdent(c: char)
    requires IsAlpha(c)
    ensures Punctuation(c).None? && !IsDigit(c) && c != '-' && IsAlnum(c)
  {
  }

  // lex as written, at the end of the file.

  /**
   * One turn of the outer loop as the C performs it. When a number or
   * identifier run reaches the end of the file, the fgetc that returns EOF
   * does not advance the stream, so the fseek of one character back lands on
   * the last character of the lexeme instead of after it.
   */
  function ScanOneAsWritten(s: seq<char>): (r: Scanned)
    requires |s| > 0
    ensures r.token == ScanOne(s).token
    ensures r.width == ScanOne(s).width || (r.width + 1 == ScanOne(s).width == |s|)
  {
    var c := s[0];
    var r := ScanOne(s);
    if (IsDigit(c) || c == '-' || IsAlnum(c)) && Punctuation(c).None? && r.width == |s| then
      Scanned(r.token, r.width - 1)
    else r
  }

  /** Inside the text, where the run is stopped by a character, the two agree. */
  lemma AsWrittenAgreesInside(s: seq<char>)
    requires |s| > 0 && ScanOne(s).width < |s|
    ensures ScanOneAsWritten(s) == ScanOne(s)
  {
  }

  /**
   * A lexeme of at least two characters that ends the file is stored, and
   * then its last character is read again as the start of the next token.
   */
  lemma AsWrittenRereadsLast(x: string)
    requires (NumberShaped(x) || IdentShaped(x)) && |x| >= 2
    ensures ScanOneAsWritten(x).width == |x| - 1
  {
    var run := if NumberShaped(x) then NumberRun else IdentRun;
    RunLengthExactly(run, x[1..], |x| - 1);
  }

  /**
   * The input "5": the one-character number at the end of the file is
   * stored and the stream is put back onto it, so the outer loop reads the
   * same character again, without end.
   */
  lemma AsWrittenStalls()
    ensures ScanOneAsWritten("5") == Scanned(Some(Number("5")), 0)
  {
    assert "5"[1..] == [] && "5"[..1] == "5";
    assert Punctuation('5').None? && IsDigit('5');
    assert ScanOne("5") == Scanned(Some(Number("5")), 1);
  }

  /** The characters that start a number or identifier run. */
  predicate StartsRun(c: char)
  {
    IsDigit(c) || c == '-' || IsAlnum(c)
  }

  /**
   * As written, a turn that starts before the last character moves on by at
   * least one character and never past the last one: a run that reaches the
   * end of the file is put back onto its last character.
   */
  lemma AsWrittenProgress(s: seq<char>, i: nat)
    requires i + 1 < |s|
    ensures 1 <= ScanOneAsWritten(s[i..]).width
    ensures i + ScanOneAsWritten(s[i..]).width <= |s| - 1
  {
  }

  /**
   * As written, the turn on the last character consumes nothing exactly when
   * that character starts a number or an identifier; otherwise it consumes it.
   */
  lemma AsWrittenAtLast(s: seq<char>)
    requires |s| > 0
    ensures StartsRun(s[|s| - 1]) ==> ScanOneAsWritten(s[|s| - 1..]).width == 0
    ensures !StartsRun(s[|s| - 1]) ==> ScanOneAsWritten(s[|s| - 1..]).width == 1
  {
    assert s[|s| - 1..][1..] == [];
  }

  /**
   * Positions of a loop that, at each position k of a text, moves on by
   * ws[k] characters: where it is after n more turns from i, stopping at the end.
   */
  function Iterate(ws: seq<nat>, i: nat, n: nat): (j: nat)
    requires i <= |ws| && forall k :: 0 <= k < |ws| ==> k + ws[k] <= |ws|
    ensures i <= j <= |ws|
    decreases n
  {
    if n == 0 || i == |ws| then i else Iterate(ws, i + ws[i], n - 1)
  }

  /** A loop that never jumps past the last position and stays there never ends. */
  lemma {:induction false} IterateNeverEnds(ws: seq<nat>, i: nat, n: nat)
    requires i < |ws| && forall k :: 0 <= k < |ws| ==> k + ws[k] <= |ws|
    requires forall k :: 0 <= k < |ws| - 1 ==> k + ws[k] <= |ws| - 1
    requires ws[|ws| - 1] == 0
    ensures Iterate(ws, i, n) < |ws|
    decreases n
  {
    if n > 0 {
      IterateNeverEnds(ws, i + ws[i], n - 1);
    }
  }

  /** A loop that moves on at every position reaches the end within |ws| - i turns. */
  lemma {:induction false} IterateEnds(ws: seq<nat>, i: nat, n: nat)
    requires i <= |ws| && forall k :: 0 <= k < |ws| ==> k + ws[k] <= |ws|
    requires forall k :: 0 <= k < |ws| ==> 1 <= ws[k]
    requires i + n >= |ws|
    ensures Iterate(ws, i, n) == |ws|
    decreases n
  {
    if i < |ws| {
      IterateEnds(ws, i + ws[i], n - 1);
    }
  }

  /** The width of the as-written turn at each position of s. */
  function Widths(s: seq<char>): (ws: seq<nat>)
    ensures |ws| == |s|
    ensures forall k :: 0 <= k < |s| ==> ws[k] == ScanOneAsWritten(s[k..]).width && k + ws[k] <= |s|
  {
    seq(|s|, k requires 0 <= k < |s| => ScanOneAsWritten(s[k..]).width)
  }

  /** The position of lex as written after n more turns of its outer loop from i. */
  function AfterTurns(s: seq<char>, i: nat, n: nat): (j: nat)
    requires i <= |s|
    ensures i <= j <= |s|
  {
    Iterate(Widths(s), i, n)
  }

  /**
   * A text whose last character starts a number or an identifier never
   * reaches the end of the file, however many turns lex takes: every turn
   * stops on or before the last character, and there it stays.
   */
  lemma AsWrittenNeverEnds(s: seq<char>, i: nat, n: nat)
    requires i < |s| && StartsRun(s[|s| - 1])
    ensures AfterTurns(s, i, n) < |s|
  {
    var ws := Widths(s);
    forall k | 0 <= k < |ws| - 1
      ensures k + ws[k] <= |ws| - 1
    {
      AsWrittenProgress(s, k);
    }
    AsWrittenAtLast(s);
    IterateNeverEnds(ws, i, n);
  }

  /**
   * Any other text reaches the end of the file: every turn consumes a
   * character, so |s| - i turns from i are enough.
   */
  lemma AsWrittenEnds(s: seq<char>, i: nat, n: nat)
    requires i <= |s| && i + n >= |s|
    requires |s| > 0 ==> !StartsRun(s[|s| - 1])
    ensures AfterTurns(s, i, n) == |s|
  {
    var ws := Widths(s);
    forall k | 0 <= k < |ws|
      ensures 1 <= ws[k]
    {
      if k + 1 < |s| {
        AsWrittenProgress(s, k);
      } else {
        AsWrittenAtLast(s);
      }
    }
    IterateEnds(ws, i, n);
  }

  /**
   * The tokens lex as written stores for a text it finishes. A run that
   * reaches the end of the file is followed by the tokens of its last
   * character read again.
   */
  function ScanAsWritten(s: seq<char>): (ts: seq<Token>)
    requires s == [] || !StartsRun(s[|s| - 1])
    decreases |s|
  {
    if s == [] then []
    else
      var r := ScanOneAsWritten(s);
      AsWrittenWidth(s);
      Emit(r.token) + ScanAsWritten(s[r.width..])
  }

  /** The width of a turn as written on a text that lex finishes is at least one. */
  lemma AsWrittenWidth(s: seq<char>)
    requires s != [] && !StartsRun(s[|s| - 1])
    ensures 1 <= ScanOneAsWritten(s).width
    ensures ScanOneAsWritten(s).width < |s| ==> s[ScanOneAsWritten(s).width..][|s| - ScanOneAsWritten(s).width - 1] == s[|s| - 1]
  {
    if |s| > 1 {
      AsWrittenProgress(s, 0);
      assert s[0..] == s;
    } else {
      AsWrittenAtLast(s);
      assert s[|s| - 1..] == s;
    }
  }

  /** ScanAsWritten, one turn unrolled. */
  lemma ScanAsWrittenCons(s: seq<char>)
    requires s != [] && !StartsRun(s[|s| - 1])
    ensures 1 <= ScanOneAsWritten(s).width
    ensures ScanAsWritten(s) == Emit(ScanOneAsWritten(s).token) + ScanAsWritten(s[ScanOneAsWritten(s).width..])
  {
    AsWrittenWidth(s);
  }

  /** A number of a digit and a `.` ending the text is stored, and the `.` is put back. */
  lemma DigitDotTurn(d: char)
    requires IsDigit(d)
    ensures ScanOne([d, '.']) == Scanned(Some(Number([d, '.'])), 2)
    ensures ScanOneAsWritten([d, '.']) == Scanned(Some(Number([d, '.'])), 1)
  {
    assert [d, '.'][1..] == ['.'] && ['.'][1..] == [] && [d, '.'][..2] == [d, '.'];
    assert RunLength(NumberRun, ['.']) == 1;
  }

  /** A lone `.` is an UNKNOWN character. */
  lemma DotTurn()
    ensures ScanOneAsWritten(['.']) == Scanned(Some(Unknown('.')), 1)
  {
  }

  /**
   * A text such as `1.` does finish, but the as-written loop stores an extra
   * UNKNOWN token for the final `.`, which it reads a second time.
   */
  lemma AsWrittenRereadsDot(d: char)
    requires IsDigit(d)
    ensures ScanAsWritten([d, '.']) == [Number([d, '.']), Unknown('.')]
    ensures Scan([d, '.']) == [Number([d, '.'])]
  {
    var x := [d, '.'];
    DigitDotTurn(d);
    DotTurn();
    assert x[1..] == ['.'] && ['.'][1..] == [] && x[2..] == [];
    calc {
      ScanAsWritten(x);
      { ScanAsWrittenCons(x); }
      [Number(x)] + ScanAsWritten(['.']);
      { ScanAsWrittenCons(['.']); }
      [Number(x)] + [Unknown('.')];
    }
    ScanCons(x);
  }

  /**
   * The characters that neither start a run nor continue one: no number or
   * identifier that reaches the end of the file can end in them.
   */
  predicate StopsRuns(c: char)
  {
    !StartsRun(c) && c != '.'
  }

  /** On a text that ends in such a character, the as-written turn is the corrected one. */
  lemma AsWrittenTurnAgrees(s: seq<char>)
    requires s != [] && StopsRuns(s[|s| - 1])
    ensures ScanOneAsWritten(s) == ScanOne(s)
  {
    if |s| > 1 {
      var t := s[1..];
      assert t[|t| - 1] == s[|s| - 1];
      assert !Continues(NumberRun, t[|t| - 1]) && !Continues(IdentRun, t[|t| - 1]);
    }
  }

  /**
   * On a text that ends in such a character (a generated file ends in `}`),
   * lex as written stores exactly the tokens of the corrected lex.
   */
  lemma {:induction false} AsWrittenAgreesWhenRunsStop(s: seq<char>)
    requires s == [] || StopsRuns(s[|s| - 1])
    ensures ScanAsWritten(s) == Scan(s)
    decreases |s|
  {
    if s != [] {
      var w := ScanOne(s).width;
      AsWrittenTurnAgrees(s);
      ScanAsWrittenCons(s);
      ScanCons(s);
      var rest := s[w..];
      if rest != [] {
        assert rest[|rest| - 1] == s[|s| - 1];
      }
      AsWrittenAgreesWhenRunsStop(rest);
    }
  }

  /**
   * The switch of lex's outer loop on the character at s[i]: the token it
   * stores, if any, and the position of the next character to read.
   */
  method ReadToken(s: seq<char>, i: nat) returns (tok: Option<Token>, next: nat)
    requires i < |s|
    requires ScanOne(s[i..]).token.Some? ==> Fits(ScanOne(s[i..]).token.value)
    ensures tok == ScanOne(s[i..]).token
    ensures next == i + ScanOne(s[i..]).width
  {
    ghost var rest := s[i..];
    ghost var step := ScanOne(rest);
    tok := None;
    var c := s[i];
    match c {
      case '{' =>
        tok, next := Some(LSquirly), i + 1;
      case '}' =>
        tok, next := Some(RSquirly), i + 1;
      case '[' =>
        tok, next := Some(LBracket), i + 1;
      case ']' =>
        tok, next := Some(RBracket), i + 1;
      case '"' =>
        tok, next := Some(DQuote), i + 1;
      case ',' =>
        tok, next := Some(Comma), i + 1;
      case ':' =>
        tok, next := Some(Colon), i + 1;
      case _ =>
        assert rest[0] == c && rest[1..] == s[i + 1..];
        if IsDigit(c) || c == '-' {
          var lexeme;
          lexeme, next := ScanLexeme(s, i, NumberRun);
          tok := Some(Number(lexeme));
          assert lexeme == rest[..step.width];
        } else if IsAlnum(c) {
          var lexeme;
          lexeme, next := ScanLexeme(s, i, IdentRun);
          tok := Some(Ident(lexeme));
          assert lexeme == rest[..step.width];
        } else if !IsSpace(c) {
          tok, next := Some(Unknown(c)), i + 1;
        } else {
          next := i + 1;
        }
    }
  }

  /**
   * The store tokens[tokens_len++] of the token a turn emits, if any, and
   * the doubling of the capacity once tokens_len reaches it.
   */
  method Append(tokens: array<Token>, len: nat, tok: Option<Token>) returns (b: array<Token>, n: nat)
    requires len < tokens.Length && Capacity(tokens.Length)
    modifies tokens
    ensures b == tokens || fresh(b)
    ensures n < b.Length && Capacity(b.Length)
    ensures b[..n] == old(tokens[..len]) + Emit(tok)
  {
    b, n := tokens, len;
    if tok.Some? {
      b[n] := tok.value;
      n := n + 1;
    }
    assert b[..n] == old(tokens[..len]) + Emit(tok);
    if n >= b.Length {
      CapacityDoubles(b.Length);
      b := Grow(b, n);
    }
  }

  /**
   * One turn of lex's outer loop, as the loop invariant sees it: the
   * tokens stored so far followed by the rest of the scan stay Scan of the
   * whole text.
   */
  lemma LexTurn(s: seq<char>, i: nat, done: seq<Token>)
    requires i < |s| && done + Scan(s[i..]) == Scan(s)
    ensures i + ScanOne(s[i..]).width <= |s|
    ensures (done + Emit(ScanOne(s[i..]).token)) + Scan(s[i + ScanOne(s[i..]).width..]) == Scan(s)
  {
    ScanAt(s, i);
    Shift(done, Scan(s[i..]), Scan(s), Emit(ScanOne(s[i..]).token), Scan(s[i + ScanOne(s[i..]).width..]));
  }

  /** The token a turn stores is one of Scan's, so it fits the buffer. */
  lemma TurnFits(s: seq<char>, i: nat, done: seq<Token>)
    requires i < |s| && LexemesFit(s) && done + Scan(s[i..]) == Scan(s)
    ensures ScanOne(s[i..]).token.Some? ==> Fits(ScanOne(s[i..]).token.value)
  {
    var step := ScanOne(s[i..]);
    if step.token.Some? {
      ScanAt(s, i);
      assert Scan(s[i..])[0] == step.token.value;
      assert Scan(s)[|done|] == step.token.value;
    }
  }

  /**
   * lex over an in-memory text: the tokens array and its length
   * tokens_len. Every append leaves tokens_len below the capacity, which
   * doubles whenever it is reached, so the final END store is in bounds.
   */
  method LexText(s: seq<char>) returns (tokens: array<Token>, len: nat)
    requires ByteText(s) && LexemesFit(s)
    ensures len <= tokens.Length && Capacity(tokens.Length)
    ensures tokens[..len] == Lex(s)
  {
    tokens := new Token[1024];
    len := 0;
    var i := 0;
    while i < |s|
      invariant i <= |s|
      invariant fresh(tokens) && len < tokens.Length && Capacity(tokens.Length)
      invariant tokens[..len] + Scan(s[i..]) == Scan(s)
      decreases |s| - i
    {
      ghost var done := tokens[..len];
      LexTurn(s, i, done);
      TurnFits(s, i, done);
      var tok;
      tok, i := ReadToken(s, i);
      tokens, len := Append(tokens, len, tok);
      Rewrite(tokens[..len], done + Emit(tok), Scan(s[i..]), Scan(s));
    }
    assert s[i..] == [];
    tokens[len] := End;
    len := len + 1;
  }
}
