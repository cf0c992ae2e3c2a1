/**
 The compiler on the shapes of the library's own examples: the exact text
 produced for scalars, lists of values, several fields and nested chains.
 Where an example's parts are arbitrary they are kept as parameters.
 */
module CompilerExamples {
  import opened QueryModel
  import opened Format
  import opened Compiler

  function Field1(key: string, v: Scalar): Elem
  {
    Obj([(key, One(v))])
  }

  /** Strings are quoted; numbers, booleans and null are not. */
  lemma ScalarFieldExamples()
    ensures Rendered(Field1("name", Str("John"))) == "name:\"John\""
    ensures Rendered(Field1("age", Num(30))) == "age:30"
    ensures Rendered(Field1("active", Bool(true))) == "active:true"
    ensures Rendered(Field1("status", Null)) == "status:null"
  {
    CompileBaseQuerySingle(("name", One(Str("John"))));
    CompileBaseQuerySingle(("age", One(Num(30))));
    assert IntToString(30) == "30";
    CompileBaseQuerySingle(("active", One(Bool(true))));
    CompileBaseQuerySingle(("status", One(Null)));
  }

  /** A one-element chain is still parenthesised. */
  lemma SingleElementExample()
    ensures Rendered(Chain([Field1("name", Str("John"))])) == "(name:\"John\")"
  {
    ScalarFieldExamples();
    SingleElementChain(Field1("name", Str("John")));
  }

  /** Two strings in a list: both quoted, joined by " OR ", in parentheses. */
  lemma TwoStringList(a: string, b: string)
    ensures FormatArrayValue([Str(a), Str(b)]) == "(\"" + a + "\" OR \"" + b + "\")"
  {
    var qa, qb := FormatValue(Str(a)), FormatValue(Str(b));
    FormatArraySmall(Str(a));
    FormatArraySnoc([Str(a)], Str(b));
    var one := FormatArrayValue([Str(a)]);
    assert one[..|one| - 1] == "(" + qa;
    assert [Str(a)] + [Str(b)] == [Str(a), Str(b)];
    QuotedPair(a, b);
  }

  /** The two quoted strings of TwoStringList, regrouped as one text. */
  lemma QuotedPair(a: string, b: string)
    ensures "(" + ("\"" + a + "\"") + " OR " + ("\"" + b + "\"") + ")" == "(\"" + a + "\" OR \"" + b + "\")"
  {
  }

  /** Mixed kinds in one list: a number, a string and a boolean. */
  lemma MixedList(n: int, s: string)
    ensures FormatArrayValue([Num(n), Str(s), Bool(true)]) ==
      "(" + IntToString(n) + " OR \"" + s + "\" OR true)"
  {
    FormatArraySmall(Num(n));
    FormatArraySnoc([Num(n)], Str(s));
    assert [Num(n)] + [Str(s)] == [Num(n), Str(s)];
    FormatArraySnoc([Num(n), Str(s)], Bool(true));
    assert [Num(n), Str(s)] + [Bool(true)] == [Num(n), Str(s), Bool(true)];
  }

  /** Two fields: `key:value` pairs in field order, joined by " AND ". */
  lemma TwoFields(f: Field, g: Field)
    ensures Rendered(Obj([f, g])) ==
      f.0 + ":" + ValueText(f.1) + " AND " + g.0 + ":" + ValueText(g.1)
  {
    CompileBaseQuerySingle(f);
    CompileBaseQuerySnoc([f], g);
    assert [f] + [g] == [f, g];
  }

  /** clause, operator, clause: the operator verbatim between the two texts, one space on each side. */
  lemma ThreeElementChain(a: Elem, op: string, b: Elem)
    ensures Rendered(Chain([a, Tok(op), b])) == "(" + Rendered(a) + (" " + op + " ") + Rendered(b) + ")"
  {
    ChainConcat([a], op, [b]);
    assert [a] + [Tok(op)] + [b] == [a, Tok(op), b];
    assert Inner([a]) == Rendered(a) && Inner([b]) == Rendered(b) by {
      assert RenderedAll([a]) == [Rendered(a)] && RenderedAll([b]) == [Rendered(b)];
    }
    ConcatAssoc("(" + Rendered(a), " " + op, " ");
    ConcatAssoc("(" + Rendered(a), " ", op);
  }

  /** A nested chain keeps its own parentheses inside the outer ones. */
  lemma NestedChainExample(a: Elem, b: Elem, c: Elem)
    ensures Rendered(Chain([a, Tok("AND"), Chain([b, Tok("OR"), c])])) ==
      "(" + Rendered(a) + " AND " + ("(" + Rendered(b) + " OR " + Rendered(c) + ")") + ")"
  {
    ThreeElementChain(b, "OR", c);
    ThreeElementChain(a, "AND", Chain([b, Tok("OR"), c]));
    assert " " + "OR" + " " == " OR ";
    assert " " + "AND" + " " == " AND ";
  }

  /** Appending an operator and a clause to a chain whose text is `o + ")"` gives `o op q)`. */
  lemma OpenSnoc(s: seq<Elem>, o: string, op: string, q: Elem)
    requires |s| > 0 && Rendered(Chain(s)) == o + ")"
    ensures Rendered(Chain(s + [Tok(op), q])) == o + (" " + op + " ") + Rendered(q) + ")"
  {
    ChainSnoc(s, op, q);
    var before := Rendered(Chain(s));
    assert before[..|before| - 1] == o;
    ConcatAssoc(o, " " + op, " ");
    ConcatAssoc(o, " ", op);
  }

  /** Four clauses joined by three operators, each operator spaced on both sides. */
  lemma FourClauseChainOps(a: Elem, b: Elem, c: Elem, d: Elem, p: string, q: string, t: string)
    ensures Rendered(Chain([a, Tok(p), b, Tok(q), c, Tok(t), d])) ==
      "(" + Rendered(a) + (" " + p + " ") + Rendered(b) + (" " + q + " ") + Rendered(c) + (" " + t + " ") + Rendered(d) + ")"
  {
    var o1 := "(" + Rendered(a) + (" " + p + " ") + Rendered(b);
    ThreeElementChain(a, p, b);
    var s3 := [a, Tok(p), b];
    var o2 := o1 + (" " + q + " ") + Rendered(c);
    OpenSnoc(s3, o1, q, c);
    var s5 := s3 + [Tok(q), c];
    OpenSnoc(s5, o2, t, d);
    assert s5 + [Tok(t), d] == [a, Tok(p), b, Tok(q), c, Tok(t), d];
  }

  /** The chain the builder produces from four clauses and three operators. */
  lemma FourClauseChain(a: Elem, b: Elem, c: Elem, d: Elem)
    ensures Rendered(Chain([a, Tok("AND"), b, Tok("AND NOT"), c, Tok("OR"), d])) ==
      "(" + Rendered(a) + " AND " + Rendered(b) + " AND NOT " + Rendered(c) + " OR " + Rendered(d) + ")"
  {
    FourClauseChainOps(a, b, c, d, "AND", "AND NOT", "OR");
    SpacedOperators();
  }

  /** The spaced forms of the operators used above. */
  lemma SpacedOperators()
    ensures " " + "AND" + " " == " AND " && " " + "AND NOT" + " " == " AND NOT " && " " + "OR" + " " == " OR "
  {
  }
}
