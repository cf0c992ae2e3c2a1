/**
 The chain validator: decides whether a list has the shape
 clause, operator, clause, ..., clause and, if not, why.

 A clause is a field-match object, or a nested list that validates on its
 own. The reasons are checked in a fixed order as the list is walked from
 the left, two elements at a time.
 */
module Validator {
  import opened QueryModel

  /** Why a list is not a valid chain. */
  datatype Reason =
    | EmptyQuery
    | StartsWithOperator
    | MustStartWithQuery
    | EndsWithOperator
    | ExpectedOperator
    | ExpectedQueryAfterOperator

  /** The outcome of validation: "valid", or the first defect found. */
  datatype Verdict = Valid | Err(reason: Reason)

  /** The texts the validator produces, one per outcome. */
  const ValidText := "valid"
  /** Every error text starts with this. */
  const ErrorPrefix := "ERROR: "
  const EmptyQueryText :=
    ErrorPrefix + "Query cannot be empty. Expected: [Query] or [Query, Operator, Query, ...]"
  const StartsWithOperatorText :=
    ErrorPrefix + "Query cannot start with an Operator. It must start with a Query."
  const MustStartWithQueryText :=
    ErrorPrefix + "Query must start with a Query (BaseQueryType or nested QueryChain)."
  const EndsWithOperatorText :=
    ErrorPrefix + "Query cannot end with an Operator. Expected a Query after the Operator."
  const ExpectedOperatorText :=
    ErrorPrefix + "After a Query, expected an Operator ('AND' | 'OR' | 'AND NOT' | 'OR NOT') but found something else."
  const ExpectedQueryAfterOperatorText :=
    ErrorPrefix + "After an Operator, expected a Query (BaseQueryType or nested QueryChain) but found something else."

  /** The text of an outcome: "valid", or a text that starts with "ERROR: ". */
  function Message(v: Verdict): (r: string)
    ensures v == Valid <==> r == ValidText
    ensures v.Err? <==> |r| >= |ErrorPrefix| && r[..|ErrorPrefix|] == ErrorPrefix
  {
    match v
    case Valid => ValidText
    case Err(EmptyQuery) => EmptyQueryText
    case Err(StartsWithOperator) => StartsWithOperatorText
    case Err(MustStartWithQuery) => MustStartWithQueryText
    case Err(EndsWithOperator) => EndsWithOperatorText
    case Err(ExpectedOperator) => ExpectedOperatorText
    case Err(ExpectedQueryAfterOperator) => ExpectedQueryAfterOperatorText
  }

  /** Each outcome has its own text, so the text alone tells the outcome. */
  lemma MessagesDistinct(v: Verdict, w: Verdict)
    ensures Message(v) == Message(w) <==> v == w
  {
    assert |ValidText| == 5 && |EmptyQueryText| == 80 && |StartsWithOperatorText| == 71;
    assert |MustStartWithQueryText| == 74 && |EndsWithOperatorText| == 78;
    assert |ExpectedOperatorText| == 106 && |ExpectedQueryAfterOperatorText| == 105;
  }

  /** Whether an element can stand where a clause is expected. */
  predicate IsValidQuery(e: Elem)
    ensures IsValidQuery(e) ==> !IsOperatorElem(e)
    ensures e.Obj? ==> IsValidQuery(e)
    decreases e, 1
  {
    match e
    case Obj(_) => true
    case Chain(s) => ValidatePatternWithError(s) == Valid
    case Tok(_) => false
  }

  /** Validates a list, reporting the first defect in the fixed order. */
  function ValidatePatternWithError(s: seq<Elem>): (r: Verdict)
    ensures r == Err(EmptyQuery) <==> |s| == 0
    ensures r == Valid ==> |s| % 2 == 1 && IsValidQuery(s[0]) && IsValidQuery(s[|s| - 1])
    decreases s, 0
  {
    if |s| == 0 then Err(EmptyQuery)
    else if IsValidQuery(s[0]) then
      if |s| == 1 then Valid
      else if !IsOperatorElem(s[1]) then Err(ExpectedOperator)
      else if |s| == 2 then Err(EndsWithOperator)
      else if !IsValidQuery(s[2]) then Err(ExpectedQueryAfterOperator)
      else ValidatePatternWithError(s[2..])
    else if IsOperatorElem(s[0]) then Err(StartsWithOperator)
    else Err(MustStartWithQuery)
  }

  // ---------------------------------------------------------------------
  // Reference definitions: the chain shape stated position by position.
  // ---------------------------------------------------------------------

  /** Position `k` holds what belongs there: a clause at even positions, an operator at odd ones. */
  predicate SlotOk(s: seq<Elem>, k: int)
    requires 0 <= k < |s|
  {
    if k % 2 == 0 then IsValidQuery(s[k]) else IsOperatorElem(s[k])
  }

  /** The first `k` positions all hold what belongs there. */
  predicate PrefixOk(s: seq<Elem>, k: int)
    requires 0 <= k <= |s|
  {
    forall i :: 0 <= i < k ==> SlotOk(s, i)
  }

  /** Odd length, clauses at even positions, operators at odd positions. */
  predicate Alternates(s: seq<Elem>)
  {
    |s| % 2 == 1 && PrefixOk(s, |s|)
  }

  /** Dropping a leading clause and operator shifts every position by two. */
  lemma PrefixShift(s: seq<Elem>, k: int)
    requires 2 <= k <= |s| && SlotOk(s, 0) && SlotOk(s, 1)
    ensures PrefixOk(s, k) <==> PrefixOk(s[2..], k - 2)
  {
    var t := s[2..];
    if PrefixOk(t, k - 2) {
      forall i | 0 <= i < k ensures SlotOk(s, i) {
        if i >= 2 {
          assert SlotOk(t, i - 2);
          assert t[i - 2] == s[i];
        }
      }
    }
    if PrefixOk(s, k) {
      forall i | 0 <= i < k - 2 ensures SlotOk(t, i) {
        assert SlotOk(s, i + 2);
        assert t[i] == s[i + 2];
      }
    }
  }

  /**
   The validator reports exactly the first defect met from the left:
   every outcome holds precisely when the position-by-position description
   of that outcome holds.
   */
  lemma {:induction false} ValidateClassifies(s: seq<Elem>)
    ensures ValidatePatternWithError(s) == Valid <==> Alternates(s)
    ensures ValidatePatternWithError(s) == Err(EmptyQuery) <==> |s| == 0
    ensures ValidatePatternWithError(s) == Err(StartsWithOperator) <==>
              |s| > 0 && IsOperatorElem(s[0])
    ensures ValidatePatternWithError(s) == Err(MustStartWithQuery) <==>
              |s| > 0 && !IsOperatorElem(s[0]) && !IsValidQuery(s[0])
    ensures ValidatePatternWithError(s) == Err(ExpectedOperator) <==>
              exists k :: 0 < k < |s| && k % 2 == 1 && PrefixOk(s, k) && !IsOperatorElem(s[k])
    ensures ValidatePatternWithError(s) == Err(EndsWithOperator) <==>
              |s| >= 2 && |s| % 2 == 0 && PrefixOk(s, |s|)
    ensures ValidatePatternWithError(s) == Err(ExpectedQueryAfterOperator) <==>
              exists k :: 2 <= k < |s| && k % 2 == 0 && PrefixOk(s, k) && !IsValidQuery(s[k])
    decreases |s|
  {
    if |s| == 0 {
    } else if !IsValidQuery(s[0]) {
      assert !SlotOk(s, 0);
      assert forall k :: 0 < k <= |s| ==> !PrefixOk(s, k);
    } else if |s| == 1 {
      assert PrefixOk(s, 1);
    } else if !IsOperatorElem(s[1]) {
      assert PrefixOk(s, 1);
      assert !SlotOk(s, 1);
      assert forall k :: 1 < k <= |s| ==> !PrefixOk(s, k);
    } else if |s| == 2 {
      assert PrefixOk(s, 2);
    } else if !IsValidQuery(s[2]) {
      assert PrefixOk(s, 2);
      assert !SlotOk(s, 2);
      assert forall k :: 2 < k <= |s| ==> !PrefixOk(s, k);
    } else {
      var t := s[2..];
      ValidateClassifies(t);
      assert SlotOk(s, 0) && SlotOk(s, 1) && SlotOk(s, 2);
      forall k | 2 <= k <= |s| ensures PrefixOk(s, k) <==> PrefixOk(t, k - 2) {
        PrefixShift(s, k);
      }
      // an operator gap in `s` is one in `t`, two places earlier, and back
      if ValidatePatternWithError(t) == Err(ExpectedOperator) {
        var k :| 0 < k < |t| && k % 2 == 1 && PrefixOk(t, k) && !IsOperatorElem(t[k]);
        assert PrefixOk(s, k + 2) && s[k + 2] == t[k];
      }
      if exists k :: 0 < k < |s| && k % 2 == 1 && PrefixOk(s, k) && !IsOperatorElem(s[k]) {
        var k :| 0 < k < |s| && k % 2 == 1 && PrefixOk(s, k) && !IsOperatorElem(s[k]);
        assert k != 1;
        assert PrefixOk(t, k - 2) && t[k - 2] == s[k];
      }
      // likewise for a missing clause after an operator
      if ValidatePatternWithError(t) == Err(ExpectedQueryAfterOperator) {
        var k :| 2 <= k < |t| && k % 2 == 0 && PrefixOk(t, k) && !IsValidQuery(t[k]);
        assert PrefixOk(s, k + 2) && s[k + 2] == t[k];
      }
      if exists k :: 2 <= k < |s| && k % 2 == 0 && PrefixOk(s, k) && !IsValidQuery(s[k]) {
        var k :| 2 <= k < |s| && k % 2 == 0 && PrefixOk(s, k) && !IsValidQuery(s[k]);
        assert k != 2;
        assert PrefixOk(t, k - 2) && t[k - 2] == s[k];
      }
    }
  }

  // ---------------------------------------------------------------------
  // Reference definition at every depth.
  // ---------------------------------------------------------------------

  /** A clause: an object, or a nested list that is a well-formed chain. */
  predicate WellFormedClause(e: Elem)
    decreases e, 1
  {
    match e
    case Obj(_) => true
    case Chain(s) => WellFormedChain(s)
    case Tok(_) => false
  }

  /** Odd length, operators at odd positions, well-formed clauses at even positions, at every depth. */
  predicate WellFormedChain(s: seq<Elem>)
    decreases s, 0
  {
    && |s| % 2 == 1
    && forall i :: 0 <= i < |s| ==>
         if i % 2 == 0 then WellFormedClause(s[i]) else IsOperatorElem(s[i])
  }

  /** An element is accepted as a clause exactly when it is well formed at every depth. */
  lemma {:induction false} ClauseValidIffWellFormed(e: Elem)
    ensures IsValidQuery(e) <==> WellFormedClause(e)
    decreases e, 1
  {
    match e
    case Obj(_) =>
    case Tok(_) =>
    case Chain(s) => ChainValidIffWellFormed(s);
  }

  /** The validator accepts a list exactly when it is a well-formed chain at every depth. */
  lemma {:induction false} ChainValidIffWellFormed(s: seq<Elem>)
    ensures ValidatePatternWithError(s) == Valid <==> WellFormedChain(s)
    decreases s, 0
  {
    ValidateClassifies(s);
    forall i | 0 <= i < |s| && i % 2 == 0 ensures IsValidQuery(s[i]) <==> WellFormedClause(s[i]) {
      ClauseValidIffWellFormed(s[i]);
    }
    assert Alternates(s) <==> WellFormedChain(s) by {
      if WellFormedChain(s) {
        forall i | 0 <= i < |s| ensures SlotOk(s, i) {
          if i % 2 == 0 { assert WellFormedClause(s[i]); }
        }
      }
      if Alternates(s) {
        forall i | 0 <= i < |s|
          ensures if i % 2 == 0 then WellFormedClause(s[i]) else IsOperatorElem(s[i])
        {
          assert SlotOk(s, i);
        }
      }
    }
  }

  /** Appending an operator and a clause to a valid chain gives a valid chain. */
  lemma AppendKeepsValid(s: seq<Elem>, op: string, q: Elem)
    requires ValidatePatternWithError(s) == Valid
    requires IsOperator(op) && IsValidQuery(q)
    ensures ValidatePatternWithError(s + [Tok(op), q]) == Valid
  {
    var u := s + [Tok(op), q];
    ValidateClassifies(s);
    ValidateClassifies(u);
    forall i | 0 <= i < |u| ensures SlotOk(u, i) {
      if i < |s| {
        assert SlotOk(s, i);
        assert u[i] == s[i];
      }
    }
  }

  /** A single clause, flat or nested, is a valid chain on its own. */
  lemma SingleClauseValid(q: Elem)
    ensures ValidatePatternWithError([q]) == Valid <==> IsValidQuery(q)
  {
  }

  /** The entry point for a literal chain: accepts only a valid chain and returns it unchanged. */
  function Query(query: seq<Elem>): (r: seq<Elem>)
    requires ValidatePatternWithError(query) == Valid
    ensures r == query
  {
    query
  }
}
