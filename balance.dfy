/**
 The parentheses the compiler writes always match up.

 Strings are copied into the output without escaping, so a key or a string
 value that itself holds a parenthesis can unbalance the result; apart from
 that, every group the compiler opens (a chain, a list of values) it closes.
 */
module Balance {
  import opened QueryModel
  import opened Format
  import opened Compiler

  /** Opening minus closing parentheses in `s`. */
  function Excess(s: string): int
  {
    if |s| == 0 then 0
    else Excess(s[..|s| - 1]) + (if s[|s| - 1] == '(' then 1 else if s[|s| - 1] == ')' then -1 else 0)
  }

  /** As many closing as opening parentheses, and no prefix closes more than it opened. */
  ghost predicate Balanced(s: string)
  {
    Excess(s) == 0 && forall k :: 0 <= k <= |s| ==> Excess(s[..k]) >= 0
  }

  /** `s` holds no parenthesis at all. */
  predicate ParenFree(s: string)
  {
    forall i :: 0 <= i < |s| ==> s[i] != '(' && s[i] != ')'
  }

  lemma {:induction false} ExcessConcat(a: string, b: string)
    ensures Excess(a + b) == Excess(a) + Excess(b)
    decreases |b|
  {
    if |b| > 0 {
      assert (a + b)[..|a + b| - 1] == a + b[..|b| - 1];
      ExcessConcat(a, b[..|b| - 1]);
    } else {
      assert a + b == a;
    }
  }

  lemma {:induction false} ParenFreeExcess(s: string)
    requires ParenFree(s)
    ensures Excess(s) == 0
    decreases |s|
  {
    if |s| > 0 {
      ParenFreeExcess(s[..|s| - 1]);
    }
  }

  lemma ParenFreeBalanced(s: string)
    requires ParenFree(s)
    ensures Balanced(s)
  {
    ParenFreeExcess(s);
    forall k | 0 <= k <= |s| ensures Excess(s[..k]) >= 0 {
      ParenFreeExcess(s[..k]);
    }
  }

  lemma BalancedConcat(a: string, b: string)
    requires Balanced(a) && Balanced(b)
    ensures Balanced(a + b)
  {
    ExcessConcat(a, b);
    forall k | 0 <= k <= |a + b| ensures Excess((a + b)[..k]) >= 0 {
      if k <= |a| {
        assert (a + b)[..k] == a[..k];
      } else {
        assert (a + b)[..k] == a + b[..k - |a|];
        ExcessConcat(a, b[..k - |a|]);
      }
    }
  }

  lemma BalancedWrap(a: string)
    requires Balanced(a)
    ensures Balanced("(" + a + ")")
  {
    var w := "(" + a + ")";
    ExcessConcat("(" + a, ")");
    ExcessConcat("(", a);
    assert Excess("(") == 1 by { assert "("[..0] == ""; }
    assert Excess(")") == -1 by { assert ")"[..0] == ""; }
    forall k | 0 <= k <= |w| ensures Excess(w[..k]) >= 0 {
      if k == 0 {
        assert w[..k] == "";
      } else if k <= |a| + 1 {
        assert w[..k] == "(" + a[..k - 1];
        ExcessConcat("(", a[..k - 1]);
      } else {
        assert w[..k] == w;
      }
    }
  }

  /** Joining balanced parts with a parenthesis-free separator stays balanced. */
  lemma {:induction false} JoinBalanced(parts: seq<string>, sep: string)
    requires ParenFree(sep)
    requires forall i :: 0 <= i < |parts| ==> Balanced(parts[i])
    ensures Balanced(Join(parts, sep))
    decreases |parts|
  {
    if |parts| == 0 {
      ParenFreeBalanced("");
    } else if |parts| > 1 {
      JoinBalanced(parts[1..], sep);
      ParenFreeBalanced(sep);
      BalancedConcat(parts[0], sep);
      BalancedConcat(parts[0] + sep, Join(parts[1..], sep));
    }
  }

  /** A string value holds no parenthesis (other scalars never do). */
  predicate ScalarParenFree(v: Scalar)
  {
    v.Str? ==> ParenFree(v.s)
  }

  /** Keys, string values and tokens hold no parenthesis, at every depth. */
  predicate ElemParenFree(e: Elem)
    decreases e
  {
    match e
    case Tok(t) => ParenFree(t)
    case Obj(fields) =>
      forall i :: 0 <= i < |fields| ==> FieldParenFree(fields[i])
    case Chain(s) =>
      forall i :: 0 <= i < |s| ==> ElemParenFree(s[i])
  }

  predicate FieldParenFree(f: Field)
  {
    && ParenFree(f.0)
    && match f.1
       case One(v) => ScalarParenFree(v)
       case Many(vs) => forall i :: 0 <= i < |vs| ==> ScalarParenFree(vs[i])
  }

  lemma ValueParenFree(v: Scalar)
    requires ScalarParenFree(v)
    ensures ParenFree(FormatValue(v))
  {
    match v
    case Str(s) =>
    case Num(n) =>
      var r := IntToString(n);
      forall i | 0 <= i < |r| ensures r[i] != '(' && r[i] != ')' {
        if n < 0 && i > 0 { assert r[i] == r[1..][i - 1]; }
      }
    case Bool(b) =>
    case Null =>
  }

  /** A field's `key:value` text is balanced when its key and strings hold no parenthesis. */
  lemma FieldBalanced(f: Field)
    requires FieldParenFree(f)
    ensures Balanced(FieldText(f))
  {
    ParenFreeBalanced(f.0 + ":");
    match f.1 {
      case One(v) =>
        ValueParenFree(v);
        ParenFreeBalanced(FormatValue(v));
      case Many(vs) =>
        forall i | 0 <= i < |vs| ensures Balanced(FormatAll(vs)[i]) {
          ValueParenFree(vs[i]);
          ParenFreeBalanced(FormatValue(vs[i]));
        }
        ParenFreeBalanced(" OR ");
        JoinBalanced(FormatAll(vs), " OR ");
        BalancedWrap(Join(FormatAll(vs), " OR "));
    }
    BalancedConcat(f.0 + ":", ValueText(f.1));
  }

  /**
   The compiler's output has matching parentheses whenever no key, string
   value or token of the input holds a parenthesis.
   */
  lemma {:induction false} RenderedBalanced(e: Elem)
    requires ElemParenFree(e)
    ensures Balanced(Rendered(e))
    decreases e
  {
    match e
    case Tok(t) =>
      ParenFreeBalanced(t);
    case Obj(fields) =>
      if |fields| == 0 {
        ParenFreeBalanced("");
      } else {
        forall i | 0 <= i < |fields| ensures Balanced(FieldTexts(fields)[i]) {
          FieldBalanced(fields[i]);
        }
        ParenFreeBalanced(" AND ");
        JoinBalanced(FieldTexts(fields), " AND ");
      }
    case Chain(s) =>
      forall i | 0 <= i < |s| ensures Balanced(RenderedAll(s)[i]) {
        RenderedBalanced(s[i]);
      }
      ParenFreeBalanced(" ");
      JoinBalanced(RenderedAll(s), " ");
      BalancedWrap(Inner(s));
  }

  /**
   Without escaping, a parenthesis inside a string value is copied into the
   output and can leave it unbalanced: `{a: ")"}` renders as `a:")"`.
   */
  lemma UnescapedParenthesisUnbalances()
    ensures Rendered(Obj([("a", One(Str(")")))])) == "a:\")\""
    ensures !Balanced(Rendered(Obj([("a", One(Str(")")))])))
  {
    CompileBaseQuerySingle(("a", One(Str(")"))));
    var r := "a:\")\"";
    assert r[..4] == "a:\")";
    assert r[..4] == "a:\"" + ")";
    ExcessConcat("a:\"", ")");
    ParenFreeExcess("a:\"");
    assert Excess(")") == -1 by { assert ")"[..0] == ""; }
  }
}
