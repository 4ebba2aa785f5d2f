// Inline assembly operands: their canonical text and the constant and
// inline_asm facts written for them.
module Assembly {
  import opened Common
  import opened Llvm
  import opened Contexts
  import opened Refmodes
  import opened Generator

  /** boost::replace_all of one character by a replacement text. */
  function ReplaceChar(s: string, c: char, rep: string): (r: string)
    ensures c !in rep ==> c !in r
    ensures forall x :: x in r ==> x in s || x in rep
  {
    if |s| == 0 then "" else (if s[0] == c then rep else [s[0]]) + ReplaceChar(s[1..], c, rep)
  }

  /** canonicalize: tabs become the two characters `\t`, then newlines the
      two characters `\n`. */
  function Canonicalize(s: string): string {
    ReplaceChar(ReplaceChar(s, '\t', "\\t"), '\n', "\\n")
  }

  /** The reference reading: each character on its own — a tab or a newline
      is escaped, every other character is kept. */
  function EscapeChar(c: char): string {
    if c == '\t' then "\\t" else if c == '\n' then "\\n" else [c]
  }

  function EscapeEach(s: string): string {
    if |s| == 0 then "" else EscapeChar(s[0]) + EscapeEach(s[1..])
  }

  /** Replacing a character in a concatenation replaces it in each part. */
  lemma {:induction false} ReplaceCharAppend(a: string, b: string, c: char, rep: string)
    ensures ReplaceChar(a + b, c, rep) == ReplaceChar(a, c, rep) + ReplaceChar(b, c, rep)
  {
    if |a| > 0 {
      assert (a + b)[1..] == a[1..] + b;
      ReplaceCharAppend(a[1..], b, c, rep);
    } else {
      assert a + b == b;
    }
  }

  /** A text without the character is left unchanged by replacing it. */
  lemma {:induction false} ReplaceCharAbsent(s: string, c: char, rep: string)
    requires c !in s
    ensures ReplaceChar(s, c, rep) == s
  {
    if |s| > 0 {
      ReplaceCharAbsent(s[1..], c, rep);
    }
  }

  /** The two passes of canonicalize escape each character on its own. */
  lemma {:induction false} CanonicalizeEscapesEach(s: string)
    ensures Canonicalize(s) == EscapeEach(s)
  {
    if |s| > 0 {
      CanonicalizeEscapesEach(s[1..]);
      var first := ReplaceChar([s[0]], '\t', "\\t");
      assert s == [s[0]] + s[1..];
      ReplaceCharAppend([s[0]], s[1..], '\t', "\\t");
      ReplaceCharAppend(first, ReplaceChar(s[1..], '\t', "\\t"), '\n', "\\n");
      if s[0] == '\t' {
        assert first == "\\t";
        ReplaceCharAbsent(first, '\n', "\\n");
      } else {
        assert first == [s[0]] + ReplaceChar([], '\t', "\\t");
      }
    }
  }

  /** The canonical text holds no tab and no newline, a text without them is
      already canonical, and so canonicalize is idempotent. */
  lemma CanonicalizeFacts(s: string)
    ensures '\t' !in Canonicalize(s) && '\n' !in Canonicalize(s)
    ensures ('\t' !in s && '\n' !in s) ==> Canonicalize(s) == s
    ensures Canonicalize(Canonicalize(s)) == Canonicalize(s)
  {
    var t := ReplaceChar(s, '\t', "\\t");
    assert '\t' !in t;
    assert '\t' !in Canonicalize(s);
    if '\t' !in s && '\n' !in s {
      ReplaceCharAbsent(s, '\t', "\\t");
      ReplaceCharAbsent(s, '\n', "\\n");
    }
    CanonicalizeIdempotent(s);
  }

  lemma CanonicalizeIdempotent(s: string)
    ensures Canonicalize(Canonicalize(s)) == Canonicalize(s)
  {
    var c := Canonicalize(s);
    var t := ReplaceChar(s, '\t', "\\t");
    assert '\t' !in t;
    assert '\t' !in c;
    ReplaceCharAbsent(c, '\t', "\\t");
    ReplaceCharAbsent(c, '\n', "\\n");
  }

  /** The escaping is not injective: a tab and a literal backslash followed
      by 't' get the same canonical text. */
  lemma CanonicalizeMergesEscapes()
    ensures Canonicalize("\t") == Canonicalize("\\t")
  {
    CanonicalizeEscapesEach("\t");
    CanonicalizeEscapesEach("\\t");
  }

  /** The value column of an inline asm: "<asm>(" + canonical text + ")". */
  function AsmValue(asmString: string): string {
    "<asm>(" + Canonicalize(asmString) + ")"
  }

  /** writeAsm on the state: the constant facts (id, type, value, hash of the
      value), the type recorded, then the inline_asm facts (id, canonical
      constraints, canonical text). */
  function WriteAsm(g: TypeGraph, h: Host, s: GenState, v: Value): (r: (string, GenState))
    requires v.kind.InlineAsmV?
  {
    var id := AsmRefmode(s.ctx);
    var constraints := Canonicalize(v.kind.constraints);
    var assem := Canonicalize(v.kind.asmString);
    var val := "<asm>(" + assem + ")";
    var s := Emit(s, "constant::id", [id]);
    var (tr, s) := RecordTy(g, s, v.ty);
    var s := Emit(s, "constant::type", [id, tr]);
    var s := Emit(s, "constant::value", [id, val]);
    var s := Emit(s, "constant::hash", [id, NatToString(h.hash(val))]);
    var s := s.(types := s.types + {v.ty});
    var s := Emit(s, "inline_asm::id", [id]);
    var s := Emit(s, "inline_asm::constraints", [id, constraints]);
    var s := Emit(s, "inline_asm::text", [id, assem]);
    (id, s)
  }

  /** writeAsm appends exactly seven facts, all about the asm refmode, with
      the canonical strings; it consumes no constant slot, leaves the frames,
      the variables and the result map alone and records the type. */
  lemma WriteAsmFacts(g: TypeGraph, h: Host, s: GenState, v: Value)
    requires v.kind.InlineAsmV?
    ensures var (id, u) := WriteAsm(g, h, s, v);
      && id == WithContext(s.ctx.contexts, InstructionT) + ":<asm>"
      && u.facts == s.facts + [
           Fact("constant::id", [id]),
           Fact("constant::type", [id, TypeRefmode(g, v.ty)]),
           Fact("constant::value", [id, AsmValue(v.kind.asmString)]),
           Fact("constant::hash", [id, NatToString(h.hash(AsmValue(v.kind.asmString)))]),
           Fact("inline_asm::id", [id]),
           Fact("inline_asm::constraints", [id, Canonicalize(v.kind.constraints)]),
           Fact("inline_asm::text", [id, Canonicalize(v.kind.asmString)])]
      && u == s.(facts := u.facts, types := s.types + {v.ty})
  {
  }

  /** writeAsm on the generator object. */
  method WriteAsmM(gen: FactGenerator, v: Value) returns (id: string)
    requires gen.Valid() && v.kind.InlineAsmV?
    modifies gen, gen.ctx
    ensures gen.Valid() && gen.ctx == old(gen.ctx)
    ensures (id, gen.St()) == WriteAsm(gen.graph, gen.host, old(gen.St()), v)
  {
    id := gen.AsmRefmode();
    var constraints := Canonicalize(v.kind.constraints);
    var assem := Canonicalize(v.kind.asmString);
    var val := "<asm>(" + assem + ")";
    var hashCode := gen.host.hash(val);
    gen.WriteFact("constant::id", [id]);
    var tr := gen.RecordType(v.ty);
    gen.WriteFact("constant::type", [id, tr]);
    gen.WriteFact("constant::value", [id, val]);
    gen.WriteFact("constant::hash", [id, NatToString(hashCode)]);
    gen.types := gen.types + {v.ty};
    gen.WriteFact("inline_asm::id", [id]);
    gen.WriteFact("inline_asm::constraints", [id, constraints]);
    gen.WriteFact("inline_asm::text", [id, assem]);
  }
}
