/**
 Rendering of field values: strings in double quotes with their content
 verbatim, numbers in decimal, booleans and null as their literal words,
 and lists of values as a parenthesised group joined by " OR ".
 */
module Format {
  import opened QueryModel

  // ---------------------------------------------------------------------
  // Joining strings with a separator, as a list's join method does.
  // ---------------------------------------------------------------------

  /** The parts in order with `sep` between each two neighbours. */
  function Join(parts: seq<string>, sep: string): string
  {
    if |parts| == 0 then ""
    else if |parts| == 1 then parts[0]
    else parts[0] + sep + Join(parts[1..], sep)
  }

  /** Joining two non-empty lists of parts puts one separator between their joins. */
  lemma {:induction false} JoinConcat(a: seq<string>, b: seq<string>, sep: string)
    requires |a| > 0 && |b| > 0
    ensures Join(a + b, sep) == Join(a, sep) + sep + Join(b, sep)
    decreases |a|
  {
    if |a| == 1 {
      assert (a + b)[1..] == b;
    } else {
      assert (a + b)[1..] == a[1..] + b;
      JoinConcat(a[1..], b, sep);
    }
  }

  /** The join of a non-empty list of parts starts with the first part. */
  lemma JoinStartsWithFirst(parts: seq<string>, sep: string)
    requires |parts| > 0
    ensures |Join(parts, sep)| >= |parts[0]| && Join(parts, sep)[..|parts[0]|] == parts[0]
  {
  }

  /** The join of a non-empty list of parts ends with the last part. */
  lemma {:induction false} JoinEndsWithLast(parts: seq<string>, sep: string)
    requires |parts| > 0
    ensures var j, z := Join(parts, sep), parts[|parts| - 1]; |j| >= |z| && j[|j| - |z|..] == z
    decreases |parts|
  {
    if |parts| > 1 {
      var rest := parts[1..];
      JoinEndsWithLast(rest, sep);
      var t, z := Join(rest, sep), parts[|parts| - 1];
      assert rest[|rest| - 1] == z;
      var j := parts[0] + sep + t;
      assert j[|j| - |z|..] == t[|t| - |z|..];
    }
  }

  /** Adding one more part adds the separator and that part at the end. */
  lemma JoinSnoc(a: seq<string>, x: string, sep: string)
    requires |a| > 0
    ensures Join(a + [x], sep) == Join(a, sep) + sep + x
  {
    JoinConcat(a, [x], sep);
  }

  // ---------------------------------------------------------------------
  // Decimal numerals, with the parser that reads them back.
  // ---------------------------------------------------------------------

  predicate IsDigit(c: char)
  {
    '0' <= c <= '9'
  }

  predicate AllDigits(s: string)
  {
    forall i :: 0 <= i < |s| ==> IsDigit(s[i])
  }

  function DigitChar(d: nat): (c: char)
    requires d < 10
    ensures IsDigit(c) && c as int - '0' as int == d
  {
    ('0' as int + d) as char
  }

  /**
   The decimal numeral of `n`: at least one digit and nothing but digits
   (NatToStringCanonical adds: no leading zero except in "0").
   */
  function NatToString(n: nat): (r: string)
    ensures |r| >= 1 && AllDigits(r)
    decreases n
  {
    if n < 10 then [DigitChar(n)] else NatToString(n / 10) + [DigitChar(n % 10)]
  }

  /** The decimal numeral of `i`, with a leading minus sign exactly when `i` is negative. */
  function IntToString(i: int): (r: string)
    ensures |r| >= 1 && (r[0] == '-' <==> i < 0)
    ensures i >= 0 ==> AllDigits(r)
    ensures i < 0 ==> |r| >= 2 && AllDigits(r[1..])
  {
    if i < 0 then "-" + NatToString(-i) else NatToString(i)
  }

  /** The numeral of `n` has a leading zero only when `n` is zero, and then it is "0". */
  lemma {:induction false} NatToStringCanonical(n: nat)
    ensures var r := NatToString(n); (r[0] == '0' <==> n == 0) && (n == 0 ==> r == "0")
    decreases n
  {
    if n >= 10 {
      NatToStringCanonical(n / 10);
      assert NatToString(n)[0] == NatToString(n / 10)[0];
    }
  }

  /** The numeral of `i` is canonical: after the optional minus sign, no leading zero unless it is "0". */
  lemma IntToStringCanonical(i: int)
    ensures var r := IntToString(i); var d := if i < 0 then r[1..] else r; |d| == 1 || d[0] != '0'
  {
    if i < 0 {
      NatToStringCanonical(-i);
      assert IntToString(i)[1..] == NatToString(-i);
    } else {
      NatToStringCanonical(i);
    }
  }

  /** The value of a non-empty string of digits. */
  function ParseDigits(s: string): nat
    requires |s| >= 1 && AllDigits(s)
    decreases |s|
  {
    var d := s[|s| - 1] as int - '0' as int;
    if |s| == 1 then d else 10 * ParseDigits(s[..|s| - 1]) + d
  }

  /** Reads an optionally signed decimal numeral. */
  function ParseInt(s: string): Option<int>
  {
    if |s| >= 2 && s[0] == '-' && AllDigits(s[1..]) then Some(-(ParseDigits(s[1..]) as int))
    else if |s| >= 1 && AllDigits(s) then Some(ParseDigits(s))
    else None
  }

  lemma {:induction false} NatRoundTrip(n: nat)
    ensures ParseDigits(NatToString(n)) == n
    decreases n
  {
    if n >= 10 {
      var r := NatToString(n);
      assert r[..|r| - 1] == NatToString(n / 10);
      NatRoundTrip(n / 10);
    }
  }

  /** Reading back the numeral of `i` gives `i`. */
  lemma IntRoundTrip(i: int)
    ensures ParseInt(IntToString(i)) == Some(i)
  {
    var r := IntToString(i);
    if i < 0 {
      assert r[1..] == NatToString(-i);
      NatRoundTrip(-i);
    } else {
      NatRoundTrip(i);
    }
  }

  // ---------------------------------------------------------------------
  // Scalars and lists of scalars.
  // ---------------------------------------------------------------------

  /**
   The text of one scalar. It is wrapped in double quotes exactly when the
   value is a string, and then the content between the quotes is the string
   itself, unescaped.
   */
  function FormatValue(v: Scalar): (r: string)
    ensures |r| >= 1
    ensures r[0] == '"' <==> v.Str?
    ensures v.Str? ==> |r| >= 2 && r[|r| - 1] == '"' && r[1..|r| - 1] == v.s
  {
    match v
    case Str(s) => "\"" + s + "\""
    case Num(n) => IntToString(n)
    case Bool(b) => if b then "true" else "false"
    case Null => "null"
  }

  /** Reads back one rendered scalar. */
  function ParseValue(t: string): Option<Scalar>
  {
    if |t| >= 2 && t[0] == '"' && t[|t| - 1] == '"' then Some(Str(t[1..|t| - 1]))
    else if t == "true" then Some(Bool(true))
    else if t == "false" then Some(Bool(false))
    else if t == "null" then Some(Null)
    else match ParseInt(t)
      case Some(n) => Some(Num(n))
      case None => None
  }

  /** Every rendered scalar reads back as itself. */
  lemma ValueRoundTrip(v: Scalar)
    ensures ParseValue(FormatValue(v)) == Some(v)
  {
    match v
    case Str(s) =>
    case Num(n) =>
      IntRoundTrip(n);
      var r := IntToString(n);
      assert r[0] == '-' || IsDigit(r[0]);
      assert r != "true" && r != "false" && r != "null" by {
        assert "true"[0] == 't' && "false"[0] == 'f' && "null"[0] == 'n';
      }
    case Bool(b) =>
    case Null =>
  }

  /** Distinct scalars render differently: "30" and 30, "true" and true, "null" and null never collide. */
  lemma FormatValueInjective(a: Scalar, b: Scalar)
    ensures FormatValue(a) == FormatValue(b) <==> a == b
  {
    ValueRoundTrip(a);
    ValueRoundTrip(b);
  }

  /** The rendered scalars of a list, in order. */
  function FormatAll(vs: seq<Scalar>): (r: seq<string>)
    ensures |r| == |vs|
    ensures forall i :: 0 <= i < |vs| ==> r[i] == FormatValue(vs[i])
  {
    seq(|vs|, i requires 0 <= i < |vs| => FormatValue(vs[i]))
  }

  /** A list of scalars: rendered elements joined by " OR ", in one pair of parentheses. */
  function FormatArrayValue(vs: seq<Scalar>): (r: string)
    ensures |r| >= 2 && r[0] == '(' && r[|r| - 1] == ')'
  {
    "(" + Join(FormatAll(vs), " OR ") + ")"
  }

  /** Extending a list of values adds " OR " and the new value inside the closing parenthesis. */
  lemma FormatArraySnoc(vs: seq<Scalar>, v: Scalar)
    requires |vs| > 0
    ensures var old_ := FormatArrayValue(vs);
      FormatArrayValue(vs + [v]) == old_[..|old_| - 1] + " OR " + FormatValue(v) + ")"
  {
    var fs, fv := FormatAll(vs), FormatValue(v);
    assert FormatAll(vs + [v]) == fs + [fv];
    JoinSnoc(fs, fv, " OR ");
    var inner := Join(fs, " OR ");
    var o := "(" + inner + ")";
    assert o[..|o| - 1] == "(" + inner;
    calc {
      FormatArrayValue(vs + [v]);
      "(" + (inner + " OR " + fv) + ")";
      { ConcatAssoc("(", inner + " OR ", fv); ConcatAssoc("(", inner, " OR "); }
      "(" + inner + " OR " + fv + ")";
    }
  }

  lemma ConcatAssoc(a: string, b: string, c: string)
    ensures a + (b + c) == a + b + c
  {
  }

  /** The empty list renders as "()", a one-element list as its element in parentheses. */
  lemma FormatArraySmall(v: Scalar)
    ensures FormatArrayValue([]) == "()"
    ensures FormatArrayValue([v]) == "(" + FormatValue(v) + ")"
  {
    assert FormatAll([v]) == [FormatValue(v)];
  }
}
