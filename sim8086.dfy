/**
 * The first 8086 disassembler of sim8086/main.c. It recognises only the
 * register/memory "mov" encoding (opcode 100010dw, then mod reg r/m) and
 * renders every such instruction as a register-to-register move; every
 * other byte is skipped.
 */
module Sim8086 {
  import opened Seqs

  /** The six opcode bits 100010 of a register/memory-to/from-register MOV. */
  const MOV: bv8 := 0x22

  /** Table 4-9 of the Intel 8086 Family User's Manual: row w, column reg. */
  const RegTable: seq<seq<string>> := [
    ["al", "cl", "dl", "bl", "ah", "ch", "dh", "bh"],  // w = 0
    ["ax", "cx", "dx", "bx", "sp", "bp", "si", "di"]   // w = 1
  ]

  /** The eight 8-bit and the eight 16-bit register names. */
  const ByteRegisters: set<string> := {"al", "cl", "dl", "bl", "ah", "ch", "dh", "bh"}
  const WordRegisters: set<string> := {"ax", "cx", "dx", "bx", "sp", "bp", "si", "di"}

  // Field extraction by shift and mask.

  function Opcode(b: bv8): (op: bv8)
    ensures op < 64
  {
    b >> 2
  }

  /** The d bit (bit 1 of the first byte). */
  function Direction(b: bv8): (d: bv8)
    ensures d <= 1
  {
    (b >> 1) & 1
  }

  /** The w bit (bit 0 of the first byte). */
  function Wide(b: bv8): (w: bv8)
    ensures w <= 1
  {
    b & 1
  }

  /** The mod field (bits 7..6 of the second byte). */
  function Mode(nb: bv8): (m: bv8)
    ensures m <= 3
  {
    (nb >> 6) & 3
  }

  /** The reg field (bits 5..3 of the second byte). */
  function Reg(nb: bv8): (r: bv8)
    ensures r <= 7
  {
    (nb >> 3) & 7
  }

  /** The r/m field (bits 2..0 of the second byte). */
  function Rm(nb: bv8): (r: bv8)
    ensures r <= 7
  {
    nb & 7
  }

  /** A register name; the bounds are those the extracted fields always meet. */
  function RegName(w: bv8, r: bv8): string
    requires w <= 1 && r <= 7
  {
    RegTable[w as int][r as int]
  }

  /** The fields of one MOV instruction. */
  datatype Fields = Fields(d: bv8, w: bv8, mode: bv8, reg: bv8, rm: bv8)

  predicate WellFormed(f: Fields)
  {
    f.d <= 1 && f.w <= 1 && f.mode <= 3 && f.reg <= 7 && f.rm <= 7
  }

  function FieldsOf(b: bv8, nb: bv8): (f: Fields)
    ensures WellFormed(f)
  {
    Fields(Direction(b), Wide(b), Mode(nb), Reg(nb), Rm(nb))
  }

  /** One output line: "mov <dst>, <src>". */
  datatype Line = Line(dst: string, src: string)

  function Text(l: Line): string
  {
    "mov " + l.dst + ", " + l.src
  }

  /**
   * The line for a MOV: both names from row w of the table, reg first when
   * d = 1 and r/m first when d = 0. The mod field takes no part.
   */
  function Render(f: Fields): Line
    requires WellFormed(f)
  {
    var r := RegName(f.w, f.reg);
    var m := RegName(f.w, f.rm);
    if f.d == 1 then Line(r, m) else Line(m, r)
  }

  function DecodePair(b: bv8, nb: bv8): Line
  {
    Render(FieldsOf(b, nb))
  }

  /** What one turn of the decode loop consumes and emits. */
  datatype Step = Step(consumed: nat, line: Option<Line>)

  /**
   * One turn of the loop on the bytes still unread: a MOV first byte with a
   * second byte behind it consumes both and emits a line; a MOV first byte at
   * the end of the stream, and any other byte, is consumed alone and emits
   * nothing.
   */
  function DecodeStep(bytes: seq<bv8>): (st: Step)
    requires |bytes| > 0
    ensures 1 <= st.consumed <= |bytes|
    ensures st.consumed == 2 <==> Opcode(bytes[0]) == MOV && |bytes| >= 2
    ensures st.line.Some? <==> st.consumed == 2
    ensures st.line.Some? ==> st.line.value == DecodePair(bytes[0], bytes[1])
  {
    if Opcode(bytes[0]) == MOV && |bytes| >= 2 then
      Step(2, Some(DecodePair(bytes[0], bytes[1])))
    else
      Step(1, None)
  }

  /** The lines the loop emits for a whole byte stream, in stream order. */
  function Decode(bytes: seq<bv8>): (lines: seq<Line>)
    ensures 2 * |lines| <= |bytes|
    decreases |bytes|
  {
    if bytes == [] then []
    else
      var st := DecodeStep(bytes);
      (if st.line.Some? then [st.line.value] else []) + Decode(bytes[st.consumed..])
  }

  /** Decode, one turn unrolled. */
  lemma DecodeCons(s: seq<bv8>)
    requires |s| > 0
    ensures Opcode(s[0]) == MOV && |s| >= 2 ==> Decode(s) == [DecodePair(s[0], s[1])] + Decode(s[2..])
    ensures !(Opcode(s[0]) == MOV && |s| >= 2) ==> Decode(s) == Decode(s[1..])
  {
  }

  /** Each line printed with its newline. */
  function Listing(lines: seq<Line>): string
  {
    if lines == [] then "" else Text(lines[0]) + "\n" + Listing(lines[1..])
  }

  /** The fixed prefix printed before the loop, for input file name `name`. */
  function Header(name: string): string
  {
    "; " + name + ":\nbits 16\n\n"
  }

  lemma {:induction false} ListingAppend(a: seq<Line>, b: seq<Line>)
    ensures Listing(a + b) == Listing(a) + Listing(b)
  {
    if a == [] {
      assert a + b == b;
    } else {
      assert (a + b)[1..] == a[1..] + b;
      ListingAppend(a[1..], b);
    }
  }

  lemma ListingOne(l: Line)
    ensures Listing([l]) == Text(l) + "\n"
  {
    assert [l][1..] == [];
    assert Listing([l]) == Text(l) + "\n" + Listing([]);
  }

  /** The text printed for a stream, one turn of the loop unrolled. */
  lemma ListingStep(rest: seq<bv8>)
    requires |rest| > 0
    ensures DecodeStep(rest).line.Some? ==>
      Listing(Decode(rest)) == Text(DecodePair(rest[0], rest[1])) + "\n" + Listing(Decode(rest[2..]))
    ensures DecodeStep(rest).line.None? ==> Listing(Decode(rest)) == Listing(Decode(rest[1..]))
  {
    var st := DecodeStep(rest);
    DecodeCons(rest);
    if st.line.Some? {
      var l := st.line.value;
      ListingAppend([l], Decode(rest[2..]));
      ListingOne(l);
    }
  }

  /**
   * The driver loop of main over an in-memory stream: it returns the text the
   * program prints for input file `name`.
   */
  method Disassemble(name: string, bytes: seq<bv8>) returns (out: string)
    ensures out == Header(name) + Listing(Decode(bytes))
  {
    out := Header(name);
    ghost var total := out + Listing(Decode(bytes));
    var pos := 0;
    while true
      invariant pos <= |bytes|
      invariant out + Listing(Decode(bytes[pos..])) == total
      decreases |bytes| - pos
    {
      if pos == |bytes| {
        break;
      }
      ghost var rest := bytes[pos..];
      ListingStep(rest);
      var b := bytes[pos];
      pos := pos + 1;
      if Opcode(b) == MOV {
        if pos == |bytes| {
          // the second read hit end of stream: only the switch is left
          assert rest[1..] == bytes[pos..];
          continue;
        }
        var nb := bytes[pos];
        pos := pos + 1;
        var d, w, mode, reg, rm := Direction(b), Wide(b), Mode(nb), Reg(nb), Rm(nb);
        var dst, src;
        if d == 1 {
          dst, src := RegName(w, reg), RegName(w, rm);
        } else {
          dst, src := RegName(w, rm), RegName(w, reg);
        }
        var line := "mov " + dst + ", " + src + "\n";
        assert rest[2..] == bytes[pos..];
        assert line == Text(DecodePair(b, nb)) + "\n";
        ghost var after := Listing(Decode(bytes[pos..]));
        assert Listing(Decode(rest)) == line + after;
        AppendAssoc(out, line, after);
        out := out + line;
        assert out + after == total;
      } else {
        assert rest[1..] == bytes[pos..];
      }
    }
  }

  // The assembler direction: the bytes of a MOV with given fields.

  function Encode(f: Fields): (bytes: seq<bv8>)
    requires WellFormed(f)
    ensures |bytes| == 2 && Opcode(bytes[0]) == MOV
    ensures FieldsOf(bytes[0], bytes[1]) == f
  {
    [(MOV << 2) | (f.d << 1) | f.w, (f.mode << 6) | (f.reg << 3) | f.rm]
  }

  function Assemble(fs: seq<Fields>): seq<bv8>
    requires forall k :: 0 <= k < |fs| ==> WellFormed(fs[k])
  {
    if fs == [] then [] else Encode(fs[0]) + Assemble(fs[1..])
  }

  function RenderAll(fs: seq<Fields>): (lines: seq<Line>)
    requires forall k :: 0 <= k < |fs| ==> WellFormed(fs[k])
    ensures |lines| == |fs|
  {
    if fs == [] then [] else [Render(fs[0])] + RenderAll(fs[1..])
  }

  /** Every MOV byte pair is the encoding of the fields decoded from it. */
  lemma EncodeFieldsOf(b: bv8, nb: bv8)
    requires Opcode(b) == MOV
    ensures Encode(FieldsOf(b, nb)) == [b, nb]
  {
  }

  /** An encoded MOV at the head of a stream decodes to its line. */
  lemma DecodeEncodeHead(f: Fields, rest: seq<bv8>)
    requires WellFormed(f)
    ensures Decode(Encode(f) + rest) == [Render(f)] + Decode(rest)
  {
    var s := Encode(f) + rest;
    assert s[0] == Encode(f)[0] && s[1] == Encode(f)[1];
    assert s[2..] == rest;
    DecodeCons(s);
  }

  /**
   * Decoding assembled MOVs followed by any tail yields their lines in order,
   * then the tail's lines.
   */
  lemma {:induction false} DecodeAssemble(fs: seq<Fields>, tail: seq<bv8>)
    requires forall k :: 0 <= k < |fs| ==> WellFormed(fs[k])
    ensures Decode(Assemble(fs) + tail) == RenderAll(fs) + Decode(tail)
  {
    if fs == [] {
      assert Assemble(fs) + tail == tail;
    } else {
      var e, more := Encode(fs[0]), Assemble(fs[1..]);
      assert Assemble(fs) + tail == e + (more + tail);
      DecodeEncodeHead(fs[0], more + tail);
      DecodeAssemble(fs[1..], tail);
      AppendAssoc([Render(fs[0])], RenderAll(fs[1..]), Decode(tail));
    }
  }

  /** Decoding a stream of MOVs with nothing after them gives their lines. */
  lemma {:induction false} DecodeAssembleExactly(fs: seq<Fields>)
    requires forall k :: 0 <= k < |fs| ==> WellFormed(fs[k])
    ensures Decode(Assemble(fs)) == RenderAll(fs)
  {
    if fs != [] {
      DecodeAssembleExactly(fs[1..]);
      DecodeEncodeHead(fs[0], Assemble(fs[1..]));
    }
  }

  /**
   * A byte left over after complete MOVs, a lone MOV first byte included,
   * adds no line.
   */
  lemma TrailingByte(fs: seq<Fields>, b: bv8)
    requires forall k :: 0 <= k < |fs| ==> WellFormed(fs[k])
    ensures Decode(Assemble(fs) + [b]) == RenderAll(fs)
  {
    DecodeAssemble(fs, [b]);
    assert [b][1..] == [];
  }

  /** A stream with no MOV first byte emits nothing. */
  lemma {:induction false} NoMovNoLines(bytes: seq<bv8>)
    requires forall k :: 0 <= k < |bytes| ==> Opcode(bytes[k]) != MOV
    ensures Decode(bytes) == []
  {
    if bytes != [] {
      NoMovNoLines(bytes[1..]);
    }
  }

  /** Flipping the d bit keeps the opcode and swaps the two operands. */
  lemma DirectionSwapsOperands(b: bv8, nb: bv8)
    ensures Opcode(b ^ 2) == Opcode(b)
    ensures DecodePair(b ^ 2, nb) == Line(DecodePair(b, nb).src, DecodePair(b, nb).dst)
  {
  }

  /** The mod field never changes the line. */
  lemma ModeIgnored(b: bv8, nb: bv8, m: bv8)
    requires m <= 3
    ensures Mode((nb & 0x3F) | (m << 6)) == m
    ensures DecodePair(b, (nb & 0x3F) | (m << 6)) == DecodePair(b, nb)
  {
  }

  /** The w bit picks one row for both names: 8-bit names or 16-bit names. */
  lemma WidthSelectsRow(b: bv8, nb: bv8)
    ensures var l := DecodePair(b, nb);
      if Wide(b) == 0 then l.dst in ByteRegisters && l.src in ByteRegisters
      else l.dst in WordRegisters && l.src in WordRegisters
  {
    var r, m := Reg(nb), Rm(nb);
    assert forall k :: 0 <= k < 8 ==> RegTable[0][k] in ByteRegisters && RegTable[1][k] in WordRegisters;
  }

  /** bytes 0x89 0xD9 decode to "mov cx, bx". */
  lemma Example()
    ensures Decode([0x89, 0xD9]) == [Line("cx", "bx")]
    ensures Listing(Decode([0x89, 0xD9])) == "mov cx, bx\n"
  {
    assert DecodeStep([0x89, 0xD9]).consumed == 2;
    assert [0x89, 0xD9][2..] == [];
  }
}
