/**
 * The structural parser `parse` of haversine/haversine.c. It walks the
 * token array that lex produces with a stack of opener tokens, checks the
 * nesting of braces, brackets and quotes, reads the number after the
 * top-level key "expected", and collects one pair record for each object
 * met at stack depth 4. Every C assert becomes an error result; numbers keep
 * their lexemes.
 */
module JsonParse {
  import opened Seqs
  import opened JsonLex

  /** A coordinate or the expected average: 0 until set, then a number lexeme. */
  datatype Num = Zero | Lit(lexeme: string)

  datatype Pair = Pair(x0: Num, x1: Num, y0: Num, y1: Num)

  /** The zero-initialised `struct pair p = {0}`. */
  const NoPair := Pair(Zero, Zero, Zero, Zero)

  datatype JsonInput = JsonInput(pairs: seq<Pair>, expected: Num)

  /** Why parse stops: the C assert that fails, or undefined behaviour of the C. */
  datatype ParseError =
    | Unexpected(at: nat)  // tokens[at] is not of the kind an assert demands
    | Unmatched(at: nat)   // the opener popped for tokens[at] is not the one it closes
    | Underflow(at: nat)   // tokens[at] pops the empty stack (sp wraps around in the C)
    | Overflow(at: nat)    // tokens[at] pushes onto a full stack (written past the array in the C)
    | NotPairs(at: nat)    // a key at depth 2 other than "expected" and "pairs"
    | Unclosed(depth: nat) // openers are left on the stack at END

  datatype Result<T> = Ok(value: T) | Fail(error: ParseError)
  {
    predicate IsFailure() { Fail? }

    function PropagateFailure<U>(): Result<U>
      requires Fail?
    {
      Fail(error)
    }

    function Extract(): T
      requires Ok?
    {
      value
    }
  }

  /** STACK_SIZE */
  const StackSize: nat := 1024

  /** The token array ends with END, as lex's does. */
  predicate Terminated(toks: seq<Token>)
  {
    |toks| > 0 && toks[|toks| - 1] == End
  }

  /** The chain of `strcmp`s on the key: x0, x1, y0, y1 set their field, other keys nothing. */
  function Assign(p: Pair, key: string, n: Num): Pair
  {
    if key == "x0" then p.(x0 := n)
    else if key == "x1" then p.(x1 := n)
    else if key == "y0" then p.(y0 := n)
    else if key == "y1" then p.(y1 := n)
    else p
  }

  /** A COLON at k and a NUMBER at k + 1, the value of a key. */
  function NumberAt(toks: seq<Token>, k: nat): (r: Result<Num>)
    requires Terminated(toks) && k < |toks|
    ensures r.Ok? <==> toks[k] == Colon && toks[k + 1].Number?
    ensures r.Ok? ==> k + 2 < |toks| && toks[k + 1].Number? && r.value == Lit(toks[k + 1].lexeme)
    ensures r.Fail? ==> r.error == Unexpected(if toks[k] != Colon then k else k + 1)
  {
    if toks[k] != Colon then Fail(Unexpected(k))
    else if !toks[k + 1].Number? then Fail(Unexpected(k + 1))
    else Ok(Lit(toks[k + 1].lexeme))
  }

  /**
   * One further entry of a pair object from position k: COMMA, DQUOTE (pushed),
   * IDENT, DQUOTE (popping the quote just pushed), then the value of the key.
   */
  function Link(toks: seq<Token>, k: nat, p: Pair): (r: Result<Pair>)
    requires Terminated(toks) && k < |toks|
    ensures r.Ok? ==> k + 6 < |toks|
  {
    if toks[k] != Comma then Fail(Unexpected(k))
    else if toks[k + 1] != DQuote then Fail(Unexpected(k + 1))
    else if !toks[k + 2].Ident? then Fail(Unexpected(k + 2))
    else if toks[k + 3] != DQuote then Fail(Unexpected(k + 3))
    else
      var n :- NumberAt(toks, k + 4);
      Ok(Assign(p, toks[k + 2].name, n))
  }

  /**
   * The block run for an IDENT at i while the stack holds 4 openers, top
   * being the top one: the closing quote of the first key pops top, which
   * must be a quote, and then four entries are read.
   */
  function Block(toks: seq<Token>, i: nat, top: Token): (r: Result<Pair>)
    requires Terminated(toks) && i < |toks| && toks[i].Ident?
    ensures r.Ok? ==> i + 22 < |toks|
  {
    if toks[i + 1] != DQuote then Fail(Unexpected(i + 1))
    else if top != DQuote then Fail(Unmatched(i + 1))
    else
      var n :- NumberAt(toks, i + 2);
      var p1 := Assign(NoPair, toks[i].name, n);
      var p2 :- Link(toks, i + 4, p1);
      var p3 :- Link(toks, i + 10, p2);
      Link(toks, i + 16, p3)
  }

  /** The state of parse at the top of its loop: the index of curr, the stack, the result so far. */
  datatype PState = PState(i: nat, stack: seq<Token>, pairs: seq<Pair>, expected: Num)

  function Top(st: seq<Token>): Token
    requires |st| > 0
  {
    st[|st| - 1]
  }

  function Pop(st: seq<Token>): seq<Token>
    requires |st| > 0
  {
    st[..|st| - 1]
  }

  /** A closer at s.i, which must pop its opener. */
  function Close(s: PState, opener: Token): (r: Result<PState>)
  {
    if |s.stack| == 0 then Fail(Underflow(s.i))
    else if Top(s.stack) != opener then Fail(Unmatched(s.i))
    else Ok(s.(i := s.i + 1, stack := Pop(s.stack)))
  }

  /** One turn of parse's loop on curr = toks[s.i], which is not END. */
  function Step(toks: seq<Token>, s: PState): (r: Result<PState>)
    requires Terminated(toks) && s.i < |toks| && toks[s.i] != End
    ensures r.Ok? ==> s.i < r.value.i < |toks|
  {
    var i, st := s.i, s.stack;
    match toks[i]
    case LSquirly | LBracket | DQuote =>
      if |st| > 0 && Top(st) == DQuote then Ok(s.(i := i + 1, stack := Pop(st)))
      else if |st| == StackSize then Fail(Overflow(i))
      else Ok(s.(i := i + 1, stack := st + [toks[i]]))
    case RSquirly => Close(s, LSquirly)
    case RBracket => Close(s, LBracket)
    case Ident(name) =>
      if |st| == 2 then
        if name == "expected" then
          if toks[i + 1] != DQuote then Fail(Unexpected(i + 1))
          else if Top(st) != DQuote then Fail(Unmatched(i + 1))
          else
            var n :- NumberAt(toks, i + 2);
            Ok(PState(i + 4, Pop(st), s.pairs, n))
        else if name != "pairs" then Fail(NotPairs(i))
        else Ok(s.(i := i + 1))
      else if |st| == 4 then
        var p :- Block(toks, i, Top(st));
        Ok(PState(i + 22, Pop(st), s.pairs + [p], s.expected))
      else Ok(s.(i := i + 1))
    case Comma | Colon | Number(_) | Unknown(_) => Ok(s.(i := i + 1))
  }

  /** parse's loop from state s up to END, where the stack must be empty. */
  function Run(toks: seq<Token>, s: PState): Result<JsonInput>
    requires Terminated(toks) && s.i < |toks|
    decreases |toks| - s.i
  {
    if toks[s.i] == End then
      if s.stack == [] then Ok(JsonInput(s.pairs, s.expected)) else Fail(Unclosed(|s.stack|))
    else
      var s' :- Step(toks, s);
      Run(toks, s')
  }

  /** What parse returns for the token array toks. */
  function ParseTokens(toks: seq<Token>): Result<JsonInput>
    requires Terminated(toks)
  {
    Run(toks, PState(0, [], [], Zero))
  }

  // Properties of one turn.

  /**
   * A closer succeeds exactly when the top of the stack is its own opener,
   * and then it pops that opener and changes nothing else.
   */
  lemma CloserPopsItsOpener(toks: seq<Token>, s: PState, opener: Token)
    requires Terminated(toks) && s.i < |toks|
    requires (toks[s.i] == RSquirly && opener == LSquirly) || (toks[s.i] == RBracket && opener == LBracket)
    ensures Step(toks, s).Ok? <==> |s.stack| > 0 && Top(s.stack) == opener
    ensures Step(toks, s).Ok? ==>
      var t := Step(toks, s).value;
      t.stack + [opener] == s.stack && t.pairs == s.pairs && t.expected == s.expected
  {
  }

  /**
   * The shape of the opener stack: it holds only the three openers, and an
   * open quote can only be on top, because any opener or quote met while a
   * quote is on top pops that quote.
   */
  predicate StackShape(st: seq<Token>)
  {
    (forall k :: 0 <= k < |st| ==> st[k] == LSquirly || st[k] == LBracket || st[k] == DQuote)
    && forall k :: 0 <= k < |st| - 1 ==> st[k] != DQuote
  }

  lemma StepKeepsShape(toks: seq<Token>, s: PState)
    requires Terminated(toks) && s.i < |toks| && toks[s.i] != End
    requires StackShape(s.stack)
    ensures Step(toks, s).Ok? ==> StackShape(Step(toks, s).value.stack)
  {
    if Step(toks, s).Ok? {
      var st, st' := s.stack, Step(toks, s).value.stack;
      if |st'| < |st| {
        assert st' == st[..|st'|];
      } else if |st'| > |st| {
        assert st' == st + [toks[s.i]];
        assert |st| == 0 || Top(st) != DQuote;
      }
    }
  }

  /** An IDENT at depth 4 appends exactly one pair, the one Block reads. */
  lemma DepthFourAppendsOnePair(toks: seq<Token>, s: PState)
    requires Terminated(toks) && s.i < |toks| && toks[s.i].Ident? && |s.stack| == 4
    requires Step(toks, s).Ok?
    ensures Block(toks, s.i, Top(s.stack)).Ok?
    ensures Step(toks, s).value.pairs == s.pairs + [Block(toks, s.i, Top(s.stack)).value]
    ensures |Step(toks, s).value.stack| == 3
  {
  }

  /** Every other successful turn leaves the pairs as they were. */
  lemma OtherTurnsKeepPairs(toks: seq<Token>, s: PState)
    requires Terminated(toks) && s.i < |toks| && toks[s.i] != End
    requires !(toks[s.i].Ident? && |s.stack| == 4)
    requires Step(toks, s).Ok?
    ensures Step(toks, s).value.pairs == s.pairs
  {
  }

  // The fields of a pair.

  /** A key of a pair object and its value. */
  datatype Entry = Entry(key: string, value: Num)

  /** The four entries the pair block at i reads, in order. */
  function Entries(toks: seq<Token>, i: nat): seq<Entry>
    requires i + 22 < |toks| && toks[i].Ident?
    requires toks[i + 6].Ident? && toks[i + 12].Ident? && toks[i + 18].Ident?
    requires toks[i + 3].Number? && toks[i + 9].Number? && toks[i + 15].Number? && toks[i + 21].Number?
  {
    [Entry(toks[i].name, Lit(toks[i + 3].lexeme)), Entry(toks[i + 6].name, Lit(toks[i + 9].lexeme)),
     Entry(toks[i + 12].name, Lit(toks[i + 15].lexeme)), Entry(toks[i + 18].name, Lit(toks[i + 21].lexeme))]
  }

  /** The value of the last entry with this key, or 0 when no entry has it. */
  function Latest(es: seq<Entry>, key: string): Num
  {
    if es == [] then Zero
    else if es[|es| - 1].key == key then es[|es| - 1].value
    else Latest(es[..|es| - 1], key)
  }

  /** The pair the entries fill in, one Assign per entry in order. */
  function Fill(es: seq<Entry>): Pair
  {
    if es == [] then NoPair
    else Assign(Fill(es[..|es| - 1]), es[|es| - 1].key, es[|es| - 1].value)
  }

  /** Each field holds the value of the last entry with its key; other keys are ignored. */
  lemma {:induction false} FillIsLatest(es: seq<Entry>)
    ensures Fill(es) == Pair(Latest(es, "x0"), Latest(es, "x1"), Latest(es, "y0"), Latest(es, "y1"))
  {
    if es != [] {
      FillIsLatest(es[..|es| - 1]);
    }
  }

  /**
   * A pair block that succeeds reads the four keys at i, i + 6, i + 12 and
   * i + 18 with their numbers three tokens later, and the pair it returns
   * holds, in each field, the number of the last of those keys naming it.
   */
  lemma BlockFields(toks: seq<Token>, i: nat, top: Token)
    requires Terminated(toks) && i < |toks| && toks[i].Ident?
    requires Block(toks, i, top).Ok?
    ensures i + 22 < |toks|
    ensures toks[i + 6].Ident? && toks[i + 12].Ident? && toks[i + 18].Ident?
    ensures toks[i + 3].Number? && toks[i + 9].Number? && toks[i + 15].Number? && toks[i + 21].Number?
    ensures var es := Entries(toks, i);
      Block(toks, i, top).value == Pair(Latest(es, "x0"), Latest(es, "x1"), Latest(es, "y0"), Latest(es, "y1"))
  {
    var es := Entries(toks, i);
    var p1 := Assign(NoPair, es[0].key, es[0].value);
    var p2 := Assign(p1, es[1].key, es[1].value);
    var p3 := Assign(p2, es[2].key, es[2].value);
    assert Link(toks, i + 4, p1) == Ok(p2);
    assert Link(toks, i + 10, p2) == Ok(p3);
    assert es[..1][..0] == [] && es[..2][..1] == es[..1] && es[..3][..2] == es[..2] && es[..3] == es[..|es| - 1];
    assert Fill(es[..1]) == p1;
    assert Fill(es[..2]) == p2;
    assert Fill(es[..3]) == p3;
    FillIsLatest(es);
  }

  /**
   * The store input.pairs[input.pairs_len++] = p and the doubling of
   * pairs_cap once pairs_len reaches it.
   */
  method AppendPair(pairs: array<Pair>, len: nat, p: Pair) returns (b: array<Pair>, n: nat)
    requires len < pairs.Length && Capacity(pairs.Length)
    modifies pairs
    ensures b == pairs || fresh(b)
    ensures n == len + 1 && n < b.Length && Capacity(b.Length)
    ensures b[..n] == old(pairs[..len]) + [p]
  {
    pairs[len] := p;
    b, n := pairs, len + 1;
    assert b[..n] == old(pairs[..len]) + [p];
    if n >= b.Length {
      CapacityDoubles(b.Length);
      b := Grow(b, n);
    }
  }

  /**
   * The cases TOKEN_LSQUIRLY, TOKEN_LBRACKET and TOKEN_DQUOTE of parse's
   * switch: an open quote on top is popped, anything else is pushed.
   */
  method OpenerTurn(toks: seq<Token>, ghost s: PState, stack: array<Token>, sp: nat, i: nat)
    returns (err: Option<ParseError>, sp': nat)
    requires Terminated(toks) && i < |toks| && toks[i] in {LSquirly, LBracket, DQuote}
    requires sp <= stack.Length == StackSize && s.i == i && s.stack == stack[..sp]
    modifies stack
    ensures sp' <= StackSize
    ensures err.Some? ==> Step(toks, s) == Fail(err.value)
    ensures err.None? ==> Step(toks, s) == Ok(s.(i := i + 1, stack := stack[..sp']))
  {
    var curr := toks[i];
    if sp > 0 && stack[sp - 1] == DQuote {
      sp' := sp - 1;
      assert stack[..sp'] == Pop(s.stack);
      return None, sp';
    } else if sp == StackSize {
      return Some(Overflow(i)), sp;
    }
    stack[sp] := curr;
    sp' := sp + 1;
    assert stack[..sp'] == s.stack + [curr];
    err := None;
  }

  /** The cases TOKEN_RSQUIRLY and TOKEN_RBRACKET: the popped entry must be the opener. */
  method CloserTurn(toks: seq<Token>, ghost s: PState, stack: array<Token>, sp: nat, i: nat, opener: Token)
    returns (err: Option<ParseError>, sp': nat)
    requires Terminated(toks) && i < |toks|
    requires (toks[i] == RSquirly && opener == LSquirly) || (toks[i] == RBracket && opener == LBracket)
    requires sp <= stack.Length && s.i == i && s.stack == stack[..sp]
    ensures sp' <= sp
    ensures err.Some? ==> Step(toks, s) == Fail(err.value)
    ensures err.None? ==> Step(toks, s) == Ok(s.(i := i + 1, stack := stack[..sp']))
  {
    if sp == 0 {
      return Some(Underflow(i)), sp;
    }
    sp' := sp - 1;
    if stack[sp'] != opener {
      return Some(Unmatched(i)), sp';
    }
    assert stack[..sp'] == Pop(s.stack);
    err := None;
  }

  /**
   * The case TOKEN_IDENT: at depth 2 the key "expected" reads the expected
   * average and any other key must be "pairs"; at depth 4 the pair block
   * appends one pair.
   */
  method KeyTurn(toks: seq<Token>, ghost s: PState, stack: array<Token>, sp: nat, i: nat,
                 pairs: array<Pair>, len: nat, expected: Num)
    returns (err: Option<ParseError>, sp': nat, i': nat, pairs': array<Pair>, len': nat, expected': Num)
    requires Terminated(toks) && i < |toks| && toks[i].Ident?
    requires sp <= stack.Length && len < pairs.Length && Capacity(pairs.Length)
    requires s == PState(i, stack[..sp], pairs[..len], expected)
    modifies pairs
    ensures sp' <= sp
    ensures (pairs' == pairs || fresh(pairs')) && len' < pairs'.Length && Capacity(pairs'.Length)
    ensures err.Some? ==> Step(toks, s) == Fail(err.value)
    ensures err.None? ==> Step(toks, s) == Ok(PState(i', stack[..sp'], pairs'[..len'], expected'))
  {
    err, sp', i', pairs', len', expected' := None, sp, i + 1, pairs, len, expected;
    var name := toks[i].name;
    if sp == 2 {
      if name == "expected" {
        if toks[i + 1] != DQuote {
          err := Some(Unexpected(i + 1));
          return;
        }
        sp' := sp - 1;
        if stack[sp'] != DQuote {
          err := Some(Unmatched(i + 1));
          return;
        }
        assert stack[..sp'] == Pop(s.stack);
        var n := NumberAt(toks, i + 2);
        if n.Fail? {
          err := Some(n.error);
          return;
        }
        expected' := n.value;
        i' := i + 4;
      } else if name != "pairs" {
        err := Some(NotPairs(i));
      }
    } else if sp == 4 {
      var p := Block(toks, i, stack[3]);
      if p.Fail? {
        err := Some(p.error);
        return;
      }
      sp' := 3;
      assert stack[..sp'] == Pop(s.stack);
      pairs', len' := AppendPair(pairs, len, p.value);
      i' := i + 22;
    }
  }

  /**
   * One turn of parse's loop, the switch on curr = toks[i]: it fails as Run
   * does from that state, or moves to the state Run continues from.
   */
  method Turn(toks: seq<Token>, ghost s: PState, stack: array<Token>, sp: nat, i: nat,
              pairs: array<Pair>, len: nat, expected: Num)
    returns (err: Option<ParseError>, sp': nat, i': nat, pairs': array<Pair>, len': nat, expected': Num)
    requires Terminated(toks) && i < |toks| && toks[i] != End
    requires sp <= stack.Length == StackSize && len < pairs.Length && Capacity(pairs.Length)
    requires s == PState(i, stack[..sp], pairs[..len], expected)
    modifies stack, pairs
    ensures sp' <= StackSize && (err.None? ==> i < i' < |toks|)
    ensures (pairs' == pairs || fresh(pairs')) && len' < pairs'.Length && Capacity(pairs'.Length)
    ensures err.Some? ==> Run(toks, s) == Fail(err.value)
    ensures err.None? ==> Run(toks, s) == Run(toks, PState(i', stack[..sp'], pairs'[..len'], expected'))
  {
    RunStep(toks, s);
    err, sp', i', pairs', len', expected' := None, sp, i + 1, pairs, len, expected;
    match toks[i] {
      case LSquirly | LBracket | DQuote =>
        err, sp' := OpenerTurn(toks, s, stack, sp, i);
      case RSquirly =>
        err, sp' := CloserTurn(toks, s, stack, sp, i, LSquirly);
      case RBracket =>
        err, sp' := CloserTurn(toks, s, stack, sp, i, LBracket);
      case Ident(_) =>
        err, sp', i', pairs', len', expected' := KeyTurn(toks, s, stack, sp, i, pairs, len, expected);
      case Comma | Colon | Number(_) | Unknown(_) =>
    }
  }

  /**
   * parse: the opener stack is the array stack with sp entries, curr is
   * toks[i], and every failed assert returns its error. The pair block reads
   * its tokens through Block; the quotes it pushes and pops again leave the
   * stack array as it was, so only sp changes.
   */
  method Parse(toks: seq<Token>) returns (r: Result<JsonInput>, pairs: array<Pair>)
    requires Terminated(toks)
    ensures r == ParseTokens(toks)
    ensures Capacity(pairs.Length)
    ensures r.Ok? ==> |r.value.pairs| < pairs.Length && pairs[..|r.value.pairs|] == r.value.pairs
  {
    pairs := new Pair[1024];
    var len: nat := 0;
    var expected := Zero;
    var stack := new Token[StackSize];
    var sp: nat := 0;
    var i: nat := 0;
    while toks[i] != End
      invariant i < |toks| && sp <= stack.Length == StackSize
      invariant fresh(pairs) && len < pairs.Length && Capacity(pairs.Length)
      invariant Run(toks, PState(i, stack[..sp], pairs[..len], expected)) == ParseTokens(toks)
      decreases |toks| - i
    {
      ghost var s := PState(i, stack[..sp], pairs[..len], expected);
      var err: Option<ParseError>;
      err, sp, i, pairs, len, expected := Turn(toks, s, stack, sp, i, pairs, len, expected);
      if err.Some? {
        return Fail(err.value), pairs;
      }
    }
    if sp != 0 {
      return Fail(Unclosed(sp)), pairs;
    }
    r := Ok(JsonInput(pairs[..len], expected));
  }

  /** Run, one turn of the loop unrolled. */
  lemma RunStep(toks: seq<Token>, s: PState)
    requires Terminated(toks) && s.i < |toks| && toks[s.i] != End
    ensures Step(toks, s).Fail? ==> Run(toks, s) == Fail(Step(toks, s).error)
    ensures Step(toks, s).Ok? ==> Run(toks, s) == Run(toks, Step(toks, s).value)
  {
  }

  /** An opener with no quote on top is pushed. */
  lemma RunPush(toks: seq<Token>, s: PState, t: PState)
    requires Terminated(toks) && s.i < |toks|
    requires toks[s.i] == LSquirly || toks[s.i] == LBracket || toks[s.i] == DQuote
    requires |s.stack| < StackSize && (|s.stack| == 0 || Top(s.stack) != DQuote)
    requires t == PState(s.i + 1, s.stack + [toks[s.i]], s.pairs, s.expected)
    ensures Run(toks, s) == Run(toks, t)
  {
    RunStep(toks, s);
  }

  /** An opener read while a quote is on top pops the quote. */
  lemma RunPopQuote(toks: seq<Token>, s: PState, t: PState)
    requires Terminated(toks) && s.i < |toks|
    requires toks[s.i] == LSquirly || toks[s.i] == LBracket || toks[s.i] == DQuote
    requires |s.stack| > 0 && Top(s.stack) == DQuote
    requires t == PState(s.i + 1, Pop(s.stack), s.pairs, s.expected)
    ensures Run(toks, s) == Run(toks, t)
  {
    RunStep(toks, s);
  }

  /** A closer pops its own opener. */
  lemma RunClose(toks: seq<Token>, s: PState, t: PState)
    requires Terminated(toks) && s.i < |toks| && |s.stack| > 0
    requires (toks[s.i] == RSquirly && Top(s.stack) == LSquirly) || (toks[s.i] == RBracket && Top(s.stack) == LBracket)
    requires t == PState(s.i + 1, Pop(s.stack), s.pairs, s.expected)
    ensures Run(toks, s) == Run(toks, t)
  {
    RunStep(toks, s);
  }

  /** A comma, a colon, or the key "pairs" at depth 2 only moves on. */
  lemma RunPass(toks: seq<Token>, s: PState, t: PState)
    requires Terminated(toks) && s.i < |toks|
    requires toks[s.i] == Comma || toks[s.i] == Colon || (toks[s.i] == Ident("pairs") && |s.stack| == 2)
    requires t == s.(i := s.i + 1)
    ensures Run(toks, s) == Run(toks, t)
  {
    RunStep(toks, s);
  }

  /** A key at depth 4 whose block reads a pair stores it and pops the quote. */
  lemma RunBlock(toks: seq<Token>, s: PState, p: Pair, t: PState)
    requires Terminated(toks) && s.i < |toks| && toks[s.i].Ident? && |s.stack| == 4
    requires Block(toks, s.i, Top(s.stack)) == Ok(p)
    requires t == PState(s.i + 22, Pop(s.stack), s.pairs + [p], s.expected)
    ensures Run(toks, s) == Run(toks, t)
  {
    RunStep(toks, s);
  }

  // The files haversine/generator.c writes.

  /** The four coordinates of a generated pair, as the lexemes printed for them. */
  datatype Coords = Coords(x0: string, y0: string, x1: string, y1: string)

  /** The tokens of one pair object {"x0": X0, "y0": Y0, "x1": X1, "y1": Y1}. */
  function PairTokens(c: Coords): (ts: seq<Token>)
    ensures |ts| == 25
  {
    [LSquirly,
     DQuote, Ident("x0"), DQuote, Colon, Number(c.x0), Comma,
     DQuote, Ident("y0"), DQuote, Colon, Number(c.y0), Comma,
     DQuote, Ident("x1"), DQuote, Colon, Number(c.x1), Comma,
     DQuote, Ident("y1"), DQuote, Colon, Number(c.y1),
     RSquirly]
  }

  /** The pair objects, separated by commas. */
  function PairsTokens(cs: seq<Coords>): seq<Token>
  {
    if |cs| <= 1 then (if cs == [] then [] else PairTokens(cs[0]))
    else PairTokens(cs[0]) + [Comma] + PairsTokens(cs[1..])
  }

  /** The tokens of {"pairs": [ ... ], "expected": E} and the final END. */
  function GenTokens(cs: seq<Coords>, e: string): seq<Token>
  {
    [LSquirly, DQuote, Ident("pairs"), DQuote, Colon, LBracket]
    + PairsTokens(cs)
    + [RBracket, Comma, DQuote, Ident("expected"), DQuote, Colon, Number(e), RSquirly, End]
  }

  function AsPair(c: Coords): Pair
  {
    Pair(Lit(c.x0), Lit(c.x1), Lit(c.y0), Lit(c.y1))
  }

  function AsPairs(cs: seq<Coords>): (ps: seq<Pair>)
    ensures |ps| == |cs|
  {
    if cs == [] then [] else [AsPair(cs[0])] + AsPairs(cs[1..])
  }

  /** toks holds ts from position i on. */
  predicate HoldsAt(toks: seq<Token>, i: nat, ts: seq<Token>)
  {
    i + |ts| <= |toks| && toks[i..i + |ts|] == ts
  }

  lemma HoldsAtIndex(toks: seq<Token>, i: nat, ts: seq<Token>)
    requires HoldsAt(toks, i, ts)
    ensures forall k :: 0 <= k < |ts| ==> toks[i + k] == ts[k]
  {
    forall k | 0 <= k < |ts|
      ensures toks[i + k] == ts[k]
    {
      assert toks[i..i + |ts|][k] == toks[i + k];
    }
  }

  lemma HoldsAtSplit(toks: seq<Token>, i: nat, a: seq<Token>, b: seq<Token>)
    requires HoldsAt(toks, i, a + b)
    ensures HoldsAt(toks, i, a) && HoldsAt(toks, i + |a|, b)
  {
    assert toks[i..i + |a|] == (a + b)[..|a|];
    assert toks[i + |a|..i + |a| + |b|] == (a + b)[|a|..];
  }

  /** The tokens of a generated pair object, one by one. */
  predicate PairAt(toks: seq<Token>, i: nat, c: Coords)
  {
    i + 25 < |toks|
    && toks[i] == LSquirly
    && toks[i + 1] == DQuote && toks[i + 2] == Ident("x0") && toks[i + 3] == DQuote
    && toks[i + 4] == Colon && toks[i + 5] == Number(c.x0) && toks[i + 6] == Comma
    && toks[i + 7] == DQuote && toks[i + 8] == Ident("y0") && toks[i + 9] == DQuote
    && toks[i + 10] == Colon && toks[i + 11] == Number(c.y0) && toks[i + 12] == Comma
    && toks[i + 13] == DQuote && toks[i + 14] == Ident("x1") && toks[i + 15] == DQuote
    && toks[i + 16] == Colon && toks[i + 17] == Number(c.x1) && toks[i + 18] == Comma
    && toks[i + 19] == DQuote && toks[i + 20] == Ident("y1") && toks[i + 21] == DQuote
    && toks[i + 22] == Colon && toks[i + 23] == Number(c.y1)
    && toks[i + 24] == RSquirly
  }

  lemma PairAtHolds(toks: seq<Token>, i: nat, c: Coords)
    requires HoldsAt(toks, i, PairTokens(c)) && i + 25 < |toks|
    ensures PairAt(toks, i, c)
  {
    var ts := PairTokens(c);
    var w := toks[i..i + 25];
    assert w == ts;
    assert toks[i] == w[0] && toks[i + 1] == w[1] && toks[i + 2] == w[2] && toks[i + 3] == w[3];
    assert toks[i + 4] == w[4] && toks[i + 5] == w[5] && toks[i + 6] == w[6] && toks[i + 7] == w[7];
    assert toks[i + 8] == w[8] && toks[i + 9] == w[9] && toks[i + 10] == w[10] && toks[i + 11] == w[11];
    assert toks[i + 12] == w[12] && toks[i + 13] == w[13] && toks[i + 14] == w[14] && toks[i + 15] == w[15];
    assert toks[i + 16] == w[16] && toks[i + 17] == w[17] && toks[i + 18] == w[18] && toks[i + 19] == w[19];
    assert toks[i + 20] == w[20] && toks[i + 21] == w[21] && toks[i + 22] == w[22] && toks[i + 23] == w[23];
    assert toks[i + 24] == w[24];
  }

  /** The pair block of a generated pair object reads exactly its coordinates. */
  lemma BlockOfPair(toks: seq<Token>, i: nat, c: Coords)
    requires Terminated(toks) && PairAt(toks, i, c)
    ensures i + 2 < |toks| && toks[i + 2].Ident? && Block(toks, i + 2, DQuote) == Ok(AsPair(c))
  {
    var p1 := Assign(NoPair, "x0", Lit(c.x0));
    var p2 := Assign(p1, "y0", Lit(c.y0));
    var p3 := Assign(p2, "x1", Lit(c.x1));
    assert NumberAt(toks, i + 4) == Ok(Lit(c.x0));
    assert Link(toks, i + 6, p1) == Ok(p2);
    assert Link(toks, i + 12, p2) == Ok(p3);
    assert Link(toks, i + 18, p3) == Ok(AsPair(c));
  }

  /** Parsing one generated pair object at depth 2 appends its pair. */
  lemma {:induction false} RunPair(toks: seq<Token>, i: nat, c: Coords, acc: seq<Pair>, ex: Num)
    requires Terminated(toks) && HoldsAt(toks, i, PairTokens(c)) && i + 25 < |toks|
    ensures Run(toks, PState(i, [LSquirly, LBracket], acc, ex))
         == Run(toks, PState(i + 25, [LSquirly, LBracket], acc + [AsPair(c)], ex))
  {
    PairAtHolds(toks, i, c);
    RunOpenPair(toks, i, c, acc, ex);
    RunPairBlock(toks, i, c, acc, ex);
    RunClosePair(toks, i, c, acc + [AsPair(c)], ex);
  }

  lemma RunOpenPair(toks: seq<Token>, i: nat, c: Coords, acc: seq<Pair>, ex: Num)
    requires Terminated(toks) && PairAt(toks, i, c)
    ensures Run(toks, PState(i, [LSquirly, LBracket], acc, ex))
         == Run(toks, PState(i + 2, [LSquirly, LBracket, LSquirly, DQuote], acc, ex))
  {
    var s0 := PState(i, [LSquirly, LBracket], acc, ex);
    var s1 := PState(i + 1, [LSquirly, LBracket, LSquirly], acc, ex);
    assert s0.stack + [LSquirly] == s1.stack;
    RunPush(toks, s0, s1);
    assert s1.stack + [DQuote] == [LSquirly, LBracket, LSquirly, DQuote];
    RunPush(toks, s1, PState(i + 2, [LSquirly, LBracket, LSquirly, DQuote], acc, ex));
  }

  lemma RunPairBlock(toks: seq<Token>, i: nat, c: Coords, acc: seq<Pair>, ex: Num)
    requires Terminated(toks) && PairAt(toks, i, c)
    ensures Run(toks, PState(i + 2, [LSquirly, LBracket, LSquirly, DQuote], acc, ex))
         == Run(toks, PState(i + 24, [LSquirly, LBracket, LSquirly], acc + [AsPair(c)], ex))
  {
    var s := PState(i + 2, [LSquirly, LBracket, LSquirly, DQuote], acc, ex);
    BlockOfPair(toks, i, c);
    assert Top(s.stack) == DQuote && Pop(s.stack) == [LSquirly, LBracket, LSquirly];
    RunBlock(toks, s, AsPair(c), PState(i + 24, [LSquirly, LBracket, LSquirly], acc + [AsPair(c)], ex));
  }

  lemma RunClosePair(toks: seq<Token>, i: nat, c: Coords, acc: seq<Pair>, ex: Num)
    requires Terminated(toks) && PairAt(toks, i, c)
    ensures Run(toks, PState(i + 24, [LSquirly, LBracket, LSquirly], acc, ex))
         == Run(toks, PState(i + 25, [LSquirly, LBracket], acc, ex))
  {
    var s := PState(i + 24, [LSquirly, LBracket, LSquirly], acc, ex);
    assert Pop(s.stack) == [LSquirly, LBracket];
    RunClose(toks, s, PState(i + 25, [LSquirly, LBracket], acc, ex));
  }

  /** Parsing the generated pair objects appends their pairs, in order. */
  lemma {:induction false} RunPairs(toks: seq<Token>, i: nat, cs: seq<Coords>, acc: seq<Pair>, ex: Num)
    requires Terminated(toks) && HoldsAt(toks, i, PairsTokens(cs)) && i + |PairsTokens(cs)| < |toks|
    ensures Run(toks, PState(i, [LSquirly, LBracket], acc, ex))
         == Run(toks, PState(i + |PairsTokens(cs)|, [LSquirly, LBracket], acc + AsPairs(cs), ex))
    decreases |cs|
  {
    if |cs| == 0 {
      assert PairsTokens(cs) == [] && acc + AsPairs(cs) == acc;
    } else if |cs| == 1 {
      RunLastPair(toks, i, cs, acc, ex);
    } else {
      PairsAtSplit(toks, i, cs);
      RunPairComma(toks, i, cs[0], acc, ex);
      RunPairs(toks, i + 26, cs[1..], acc + [AsPair(cs[0])], ex);
      PairsJoin(i, cs, acc, ex);
      RunChain(toks, PState(i, [LSquirly, LBracket], acc, ex),
        PState(i + 26, [LSquirly, LBracket], acc + [AsPair(cs[0])], ex),
        PState(i + 26 + |PairsTokens(cs[1..])|, [LSquirly, LBracket], (acc + [AsPair(cs[0])]) + AsPairs(cs[1..]), ex),
        PState(i + |PairsTokens(cs)|, [LSquirly, LBracket], acc + AsPairs(cs), ex));
    }
  }

  /** Two runs that reach the same result, the second to a state equal to d. */
  lemma RunChain(toks: seq<Token>, a: PState, b: PState, c: PState, d: PState)
    requires Terminated(toks) && a.i < |toks| && b.i < |toks| && c.i < |toks|
    requires Run(toks, a) == Run(toks, b) && Run(toks, b) == Run(toks, c) && c == d
    ensures Run(toks, a) == Run(toks, d)
  {
  }

  /** The last pair object, with no comma after it. */
  lemma RunLastPair(toks: seq<Token>, i: nat, cs: seq<Coords>, acc: seq<Pair>, ex: Num)
    requires |cs| == 1 && Terminated(toks) && HoldsAt(toks, i, PairsTokens(cs)) && i + |PairsTokens(cs)| < |toks|
    ensures Run(toks, PState(i, [LSquirly, LBracket], acc, ex))
         == Run(toks, PState(i + |PairsTokens(cs)|, [LSquirly, LBracket], acc + AsPairs(cs), ex))
  {
    assert PairsTokens(cs) == PairTokens(cs[0]);
    assert AsPairs(cs) == [AsPair(cs[0])];
    RunPair(toks, i, cs[0], acc, ex);
  }

  /** The first pair object and its comma, then the other pair objects. */
  lemma PairsAtSplit(toks: seq<Token>, i: nat, cs: seq<Coords>)
    requires |cs| > 1 && HoldsAt(toks, i, PairsTokens(cs)) && i + |PairsTokens(cs)| < |toks|
    ensures i + 26 + |PairsTokens(cs[1..])| == i + |PairsTokens(cs)| < |toks|
    ensures HoldsAt(toks, i, PairTokens(cs[0]) + [Comma]) && HoldsAt(toks, i + 26, PairsTokens(cs[1..]))
  {
    assert PairsTokens(cs) == (PairTokens(cs[0]) + [Comma]) + PairsTokens(cs[1..]);
    HoldsAtSplit(toks, i, PairTokens(cs[0]) + [Comma], PairsTokens(cs[1..]));
  }

  /** The state after the first pair and the rest is the state after all the pairs. */
  lemma PairsJoin(i: nat, cs: seq<Coords>, acc: seq<Pair>, ex: Num)
    requires |cs| > 1
    ensures PState(i + 26 + |PairsTokens(cs[1..])|, [LSquirly, LBracket], (acc + [AsPair(cs[0])]) + AsPairs(cs[1..]), ex)
         == PState(i + |PairsTokens(cs)|, [LSquirly, LBracket], acc + AsPairs(cs), ex)
  {
    assert |PairsTokens(cs)| == 26 + |PairsTokens(cs[1..])|;
    assert AsPairs(cs) == [AsPair(cs[0])] + AsPairs(cs[1..]);
    AppendAssoc(acc, [AsPair(cs[0])], AsPairs(cs[1..]));
  }

  /** A pair object followed by its comma appends its pair. */
  lemma RunPairComma(toks: seq<Token>, i: nat, c: Coords, acc: seq<Pair>, ex: Num)
    requires Terminated(toks) && HoldsAt(toks, i, PairTokens(c) + [Comma]) && i + 26 < |toks|
    ensures Run(toks, PState(i, [LSquirly, LBracket], acc, ex))
         == Run(toks, PState(i + 26, [LSquirly, LBracket], acc + [AsPair(c)], ex))
  {
    HoldsAtSplit(toks, i, PairTokens(c), [Comma]);
    RunPair(toks, i, c, acc, ex);
    HoldsAtIndex(toks, i + 25, [Comma]);
    RunComma(toks, i + 25, acc + [AsPair(c)], ex);
  }

  /** A comma between pair objects changes nothing but the position. */
  lemma RunComma(toks: seq<Token>, j: nat, acc: seq<Pair>, ex: Num)
    requires Terminated(toks) && j + 1 < |toks| && toks[j] == Comma
    ensures Run(toks, PState(j, [LSquirly, LBracket], acc, ex))
         == Run(toks, PState(j + 1, [LSquirly, LBracket], acc, ex))
  {
    var s := PState(j, [LSquirly, LBracket], acc, ex);
    RunPass(toks, s, s.(i := j + 1));
  }

  /** {"pairs": [ opens the object, reads the key "pairs" and opens the array. */
  lemma RunHead(toks: seq<Token>)
    requires Terminated(toks) && 6 < |toks|
    requires toks[0] == LSquirly && toks[1] == DQuote && toks[2] == Ident("pairs")
    requires toks[3] == DQuote && toks[4] == Colon && toks[5] == LBracket
    ensures Run(toks, PState(0, [], [], Zero)) == Run(toks, PState(6, [LSquirly, LBracket], [], Zero))
  {
    var s0 := PState(0, [], [], Zero);
    var s1 := PState(1, [LSquirly], [], Zero);
    var s2 := PState(2, [LSquirly, DQuote], [], Zero);
    var s3 := PState(3, [LSquirly, DQuote], [], Zero);
    assert [] + [LSquirly] == s1.stack;
    RunPush(toks, s0, s1);
    assert s1.stack + [DQuote] == s2.stack;
    RunPush(toks, s1, s2);
    RunPass(toks, s2, s3);
    RunHeadRest(toks);
  }

  lemma RunHeadRest(toks: seq<Token>)
    requires Terminated(toks) && 6 < |toks|
    requires toks[3] == DQuote && toks[4] == Colon && toks[5] == LBracket
    ensures Run(toks, PState(3, [LSquirly, DQuote], [], Zero)) == Run(toks, PState(6, [LSquirly, LBracket], [], Zero))
  {
    var s3 := PState(3, [LSquirly, DQuote], [], Zero);
    var s4 := PState(4, [LSquirly], [], Zero);
    var s5 := PState(5, [LSquirly], [], Zero);
    assert Pop(s3.stack) == s4.stack;
    RunPopQuote(toks, s3, s4);
    RunPass(toks, s4, s5);
    assert s5.stack + [LBracket] == [LSquirly, LBracket];
    RunPush(toks, s5, PState(6, [LSquirly, LBracket], [], Zero));
  }

  /** ], "expected": E} closes the array, reads the expected average and closes the object. */
  lemma RunTail(toks: seq<Token>, n: nat, ps: seq<Pair>, e: string)
    requires Terminated(toks) && n + 8 < |toks|
    requires toks[n] == RBracket && toks[n + 1] == Comma && toks[n + 2] == DQuote
    requires toks[n + 3] == Ident("expected") && toks[n + 4] == DQuote && toks[n + 5] == Colon
    requires toks[n + 6] == Number(e) && toks[n + 7] == RSquirly && toks[n + 8] == End
    ensures Run(toks, PState(n, [LSquirly, LBracket], ps, Zero)) == Ok(JsonInput(ps, Lit(e)))
  {
    var t0 := PState(n, [LSquirly, LBracket], ps, Zero);
    var t1 := PState(n + 1, [LSquirly], ps, Zero);
    var t2 := PState(n + 2, [LSquirly], ps, Zero);
    var t3 := PState(n + 3, [LSquirly, DQuote], ps, Zero);
    assert Pop(t0.stack) == t1.stack;
    RunClose(toks, t0, t1);
    RunPass(toks, t1, t2);
    assert t2.stack + [DQuote] == t3.stack;
    RunPush(toks, t2, t3);
    RunTailRest(toks, n, ps, e);
  }

  lemma RunTailRest(toks: seq<Token>, n: nat, ps: seq<Pair>, e: string)
    requires Terminated(toks) && n + 8 < |toks|
    requires toks[n + 3] == Ident("expected") && toks[n + 4] == DQuote && toks[n + 5] == Colon
    requires toks[n + 6] == Number(e) && toks[n + 7] == RSquirly && toks[n + 8] == End
    ensures Run(toks, PState(n + 3, [LSquirly, DQuote], ps, Zero)) == Ok(JsonInput(ps, Lit(e)))
  {
    var t3 := PState(n + 3, [LSquirly, DQuote], ps, Zero);
    var t4 := PState(n + 7, [LSquirly], ps, Lit(e));
    var t5 := PState(n + 8, [], ps, Lit(e));
    RunStep(toks, t3);
    assert Pop(t3.stack) == t4.stack;
    assert Step(toks, t3) == Ok(t4);
    assert Pop(t4.stack) == t5.stack;
    RunClose(toks, t4, t5);
  }

  /** Where the parts of a generated token stream lie. */
  lemma GenTokensLayout(cs: seq<Coords>, e: string)
    ensures var toks, n := GenTokens(cs, e), 6 + |PairsTokens(cs)|;
      |toks| == n + 9 && HoldsAt(toks, 6, PairsTokens(cs))
      && toks[0] == LSquirly && toks[1] == DQuote && toks[2] == Ident("pairs")
      && toks[3] == DQuote && toks[4] == Colon && toks[5] == LBracket
      && toks[n] == RBracket && toks[n + 1] == Comma && toks[n + 2] == DQuote
      && toks[n + 3] == Ident("expected") && toks[n + 4] == DQuote && toks[n + 5] == Colon
      && toks[n + 6] == Number(e) && toks[n + 7] == RSquirly && toks[n + 8] == End
  {
    var toks := GenTokens(cs, e);
    var head, body, tail := HeadTokens(), PairsTokens(cs), TailTokens(e);
    assert toks == head + body + tail;
    HoldsAtSplit(toks, 0, head + body, tail);
    HoldsAtSplit(toks, 0, head, body);
    HeadAt(toks);
    TailAt(toks, 6 + |body|, e);
  }

  function HeadTokens(): seq<Token>
  {
    [LSquirly, DQuote, Ident("pairs"), DQuote, Colon, LBracket]
  }

  function TailTokens(e: string): seq<Token>
  {
    [RBracket, Comma, DQuote, Ident("expected"), DQuote, Colon, Number(e), RSquirly, End]
  }

  lemma HeadAt(toks: seq<Token>)
    requires HoldsAt(toks, 0, HeadTokens())
    ensures toks[0] == LSquirly && toks[1] == DQuote && toks[2] == Ident("pairs")
    ensures toks[3] == DQuote && toks[4] == Colon && toks[5] == LBracket
  {
    HoldsAtIndex(toks, 0, HeadTokens());
  }

  lemma TailAt(toks: seq<Token>, n: nat, e: string)
    requires HoldsAt(toks, n, TailTokens(e))
    ensures toks[n] == RBracket && toks[n + 1] == Comma && toks[n + 2] == DQuote
    ensures toks[n + 3] == Ident("expected") && toks[n + 4] == DQuote && toks[n + 5] == Colon
    ensures toks[n + 6] == Number(e) && toks[n + 7] == RSquirly && toks[n + 8] == End
  {
    HoldsAtIndex(toks, n, TailTokens(e));
  }

  /**
   * The token stream of a generated file parses to exactly its pairs, in
   * order, and its expected average.
   */
  lemma GeneratedRoundTrip(cs: seq<Coords>, e: string)
    ensures Terminated(GenTokens(cs, e))
    ensures ParseTokens(GenTokens(cs, e)) == Ok(JsonInput(AsPairs(cs), Lit(e)))
  {
    var toks := GenTokens(cs, e);
    var n := 6 + |PairsTokens(cs)|;
    GenTokensLayout(cs, e);
    RunHead(toks);
    RunPairs(toks, 6, cs, [], Zero);
    assert [] + AsPairs(cs) == AsPairs(cs);
    RunTail(toks, n, AsPairs(cs), e);
  }
}
