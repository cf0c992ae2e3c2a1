/**
 The compiler from a clause or a chain to a search string.

 A field-match object becomes its `key:value` pairs joined by " AND "; a
 chain becomes its rendered elements (operators verbatim, nested chains
 recursively) joined by single spaces inside one pair of parentheses,
 even when it has a single element.
 */
module Compiler {
  import opened QueryModel
  import opened Validator
  import opened Format

  /** The text of a field's value: one scalar, or a parenthesised " OR " group. */
  function ValueText(v: FieldVal): string
  {
    match v
    case One(x) => FormatValue(x)
    case Many(xs) => FormatArrayValue(xs)
  }

  /** A single value's text is quoted exactly when it is a string; a list's text is one parenthesised group. */
  lemma ValueTextShape(v: FieldVal)
    ensures v.One? ==> |ValueText(v)| >= 1 && (ValueText(v)[0] == '"' <==> v.v.Str?)
    ensures v.Many? ==> |ValueText(v)| >= 2 && ValueText(v)[0] == '(' && ValueText(v)[|ValueText(v)| - 1] == ')'
  {
  }

  /** `key:value` for one field. */
  function FieldText(f: Field): (r: string)
    ensures |r| > |f.0| && r[..|f.0|] == f.0 && r[|f.0|] == ':'
  {
    f.0 + ":" + ValueText(f.1)
  }

  /** After the key and its colon comes `formatValue` of a single value or `formatArrayValue` of a list. */
  lemma FieldTextDispatch(f: Field)
    ensures var r := FieldText(f); f.1.One? ==> r[|f.0| + 1..] == FormatValue(f.1.v)
    ensures var r := FieldText(f); f.1.Many? ==> r[|f.0| + 1..] == FormatArrayValue(f.1.vs)
  {
    var r := FieldText(f);
    assert r[|f.0| + 1..] == ValueText(f.1);
  }

  /** The rendered fields of an object, in field order. */
  function FieldTexts(fields: seq<Field>): (r: seq<string>)
    ensures |r| == |fields|
    ensures forall i :: 0 <= i < |fields| ==> r[i] == FieldText(fields[i])
  {
    seq(|fields|, i requires 0 <= i < |fields| => FieldText(fields[i]))
  }

  /**
   An object's search text: its fields joined by " AND ". It is empty exactly
   when the object has no fields (every field contributes at least its colon).
   */
  function CompileBaseQuery(fields: seq<Field>): (r: string)
    ensures r == "" <==> |fields| == 0
  {
    if |fields| == 0 then ""
    else
      JoinStartsWithFirst(FieldTexts(fields), " AND ");
      Join(FieldTexts(fields), " AND ")
  }

  /** Adding a field adds " AND " and its `key:value` at the end. */
  lemma CompileBaseQuerySnoc(fields: seq<Field>, f: Field)
    requires |fields| > 0
    ensures CompileBaseQuery(fields + [f]) == CompileBaseQuery(fields) + " AND " + FieldText(f)
  {
    assert FieldTexts(fields + [f]) == FieldTexts(fields) + [FieldText(f)];
    JoinSnoc(FieldTexts(fields), FieldText(f), " AND ");
  }

  /** A one-field object renders as `key:value`. */
  lemma CompileBaseQuerySingle(f: Field)
    ensures CompileBaseQuery([f]) == f.0 + ":" + ValueText(f.1)
  {
    assert FieldTexts([f]) == [FieldText(f)];
  }

  // ---------------------------------------------------------------------
  // The rendering of elements, as the compiler's specification.
  // ---------------------------------------------------------------------

  /**
   What the compiler produces for one element: an operator token verbatim,
   an object by CompileBaseQuery, a chain as its parts in parentheses.
   */
  function Rendered(e: Elem): string
    decreases e, 2
  {
    match e
    case Tok(t) => t
    case Obj(fields) => CompileBaseQuery(fields)
    case Chain(s) => "(" + Inner(s) + ")"
  }

  /** The rendered elements of a chain, joined by single spaces. */
  function Inner(s: seq<Elem>): string
    decreases s, 1
  {
    Join(RenderedAll(s), " ")
  }

  /** The rendered elements of a chain, in order. */
  function RenderedAll(s: seq<Elem>): (r: seq<string>)
    ensures |r| == |s|
    ensures forall i :: 0 <= i < |s| ==> r[i] == Rendered(s[i])
    decreases s, 0
  {
    if |s| == 0 then [] else [Rendered(s[0])] + RenderedAll(s[1..])
  }

  /**
   The shape of each kind of rendered element: a token is itself, an object's
   text is empty exactly when it has no fields, a chain's text is wrapped in
   one pair of parentheses.
   */
  lemma RenderedShape(e: Elem)
    ensures e.Tok? ==> Rendered(e) == e.t
    ensures e.Obj? ==> (Rendered(e) == "" <==> |e.fields| == 0)
    ensures e.Chain? ==> |Rendered(e)| >= 2 && Rendered(e)[0] == '(' && Rendered(e)[|Rendered(e)| - 1] == ')'
  {
  }

  /** A non-empty chain's inner text starts with its first element's text and ends with its last. */
  lemma InnerEnds(s: seq<Elem>)
    requires |s| > 0
    ensures var r, a := Inner(s), Rendered(s[0]); |r| >= |a| && r[..|a|] == a
    ensures var r, z := Inner(s), Rendered(s[|s| - 1]); |r| >= |z| && r[|r| - |z|..] == z
  {
    JoinStartsWithFirst(RenderedAll(s), " ");
    JoinEndsWithLast(RenderedAll(s), " ");
  }

  /** In a valid chain every element that is not an operator is a valid clause. */
  lemma NonOperatorIsClause(s: seq<Elem>, i: int)
    requires ValidatePatternWithError(s) == Valid
    requires 0 <= i < |s| && !IsOperatorElem(s[i])
    ensures IsValidQuery(s[i]) && i % 2 == 0
  {
    ValidateClassifies(s);
    assert SlotOk(s, i);
  }

  /**
   Compiles a validated clause or chain: a chain's parts, collected by
   CompileParts, joined by spaces and parenthesised; an object by
   CompileBaseQuery.
   */
  method CompileQuery(query: Elem) returns (r: string)
    requires IsValidQuery(query)
    ensures r == Rendered(query)
    decreases query, 2
  {
    if IsQueryChain(query) {
      var parts := CompileParts(query.elems);
      r := "(" + Join(parts, " ") + ")";
    } else {
      r := CompileBaseQuery(query.fields);
    }
  }

  /** The loop over a validated chain's elements, collecting one part per element, in order. */
  method CompileParts(elems: seq<Elem>) returns (parts: seq<string>)
    requires ValidatePatternWithError(elems) == Valid
    ensures parts == RenderedAll(elems)
    decreases elems, 1
  {
    parts := [];
    for i := 0 to |elems|
      invariant parts == RenderedAll(elems[..i])
    {
      var part := CompilePart(elems, i);
      RenderedAllConcat(elems[..i], [elems[i]]);
      assert RenderedAll([elems[i]]) == [part];
      assert elems[..i + 1] == elems[..i] + [elems[i]];
      parts := parts + [part];
    }
    assert elems[..|elems|] == elems;
  }

  /**
   The part one element of a validated chain contributes: an operator as it
   is, a nested chain compiled recursively, an object by CompileBaseQuery.
   */
  method CompilePart(elems: seq<Elem>, i: int) returns (part: string)
    requires ValidatePatternWithError(elems) == Valid && 0 <= i < |elems|
    ensures part == Rendered(elems[i])
    decreases elems[i], 3
  {
    var element := elems[i];
    if IsOperatorElem(element) {
      part := element.t;
    } else if IsQueryChain(element) {
      NonOperatorIsClause(elems, i);
      part := CompileQuery(element);
    } else {
      NonOperatorIsClause(elems, i);
      part := CompileBaseQuery(element.fields);
    }
  }

  // ---------------------------------------------------------------------
  // Properties of the rendering.
  // ---------------------------------------------------------------------

  /** A one-element chain is its element's text in parentheses. */
  lemma SingleElementChain(e: Elem)
    ensures Rendered(Chain([e])) == "(" + Rendered(e) + ")"
  {
    assert RenderedAll([e]) == [Rendered(e)];
  }

  /**
   Joining two chains with an operator: the operator appears verbatim between
   the two inner texts, separated by single spaces, all in one pair of
   parentheses.
   */
  lemma ChainConcat(a: seq<Elem>, op: string, b: seq<Elem>)
    requires |a| > 0 && |b| > 0
    ensures Rendered(Chain(a + [Tok(op)] + b)) == "(" + Inner(a) + " " + op + " " + Inner(b) + ")"
  {
    var ra, rb := RenderedAll(a), RenderedAll(b);
    RenderedAllConcat(a + [Tok(op)], b);
    RenderedAllConcat(a, [Tok(op)]);
    assert RenderedAll([Tok(op)]) == [op];
    JoinConcat(ra + [op], rb, " ");
    JoinSnoc(ra, op, " ");
    var x, y := Inner(a), Inner(b);
    calc {
      Rendered(Chain(a + [Tok(op)] + b));
      "(" + (x + " " + op + " " + y) + ")";
      { ConcatAssoc("(", x + " " + op + " ", y); ConcatAssoc("(", x + " " + op, " ");
        ConcatAssoc("(", x + " ", op); ConcatAssoc("(", x, " "); }
      "(" + x + " " + op + " " + y + ")";
    }
  }

  /** The parts of two chains put together are the parts of each, in order. */
  lemma RenderedAllConcat(a: seq<Elem>, b: seq<Elem>)
    ensures RenderedAll(a + b) == RenderedAll(a) + RenderedAll(b)
  {
    assert forall i :: 0 <= i < |a + b| ==> (a + b)[i] == if i < |a| then a[i] else b[i - |a|];
  }

  /**
   Appending an operator and a clause to a chain (what each builder call
   does) inserts a space, the operator, a space and the clause's text just
   before the closing parenthesis.
   */
  lemma ChainSnoc(s: seq<Elem>, op: string, q: Elem)
    requires |s| > 0
    ensures var before := Rendered(Chain(s));
      Rendered(Chain(s + [Tok(op), q])) == before[..|before| - 1] + " " + op + " " + Rendered(q) + ")"
  {
    ChainConcat(s, op, [q]);
    assert s + [Tok(op)] + [q] == s + [Tok(op), q];
    assert RenderedAll([q]) == [Rendered(q)];
    var before := Rendered(Chain(s));
    assert before[..|before| - 1] == "(" + Inner(s);
  }

  /** `e` wrapped in `n` one-element chains. */
  function Nest(e: Elem, n: nat): Elem
  {
    if n == 0 then e else Chain([Nest(e, n - 1)])
  }

  function Repeat(c: char, n: nat): (r: string)
    ensures |r| == n && forall i :: 0 <= i < n ==> r[i] == c
  {
    if n == 0 then "" else [c] + Repeat(c, n - 1)
  }

  /** Each level of nesting adds its own pair of parentheses. */
  lemma {:induction false} NestedParentheses(e: Elem, n: nat)
    ensures Rendered(Nest(e, n)) == Repeat('(', n) + Rendered(e) + Repeat(')', n)
  {
    if n > 0 {
      var a, b, x := Repeat('(', n - 1), Repeat(')', n - 1), Rendered(e);
      calc {
        Rendered(Nest(e, n));
        { SingleElementChain(Nest(e, n - 1)); }
        "(" + Rendered(Nest(e, n - 1)) + ")";
        { NestedParentheses(e, n - 1); }
        "(" + (a + x + b) + ")";
        { ConcatAssoc("(", a + x, b); ConcatAssoc("(", a, x); ConcatAssoc("(" + a + x, b, ")"); }
        ("(" + a) + x + (b + ")");
        { assert Repeat(')', n) == b + ")"; }
        Repeat('(', n) + x + Repeat(')', n);
      }
    }
  }
}
