/**
 The older top-level entry point of the library. Its validator is the same
 definition as the current one (module Validator); it adds an identity entry
 point and a builder factory, and its type tests pin down the error texts.
 */
module LegacyIndex {
  import opened QueryModel
  import opened Validator
  import opened Builder

  /** Accepts only a valid chain and hands it back unchanged. */
  function ProcessQuery(query: seq<Elem>): (r: seq<Elem>)
    requires ValidatePatternWithError(query) == Verdict.Valid
    ensures r == query
  {
    query
  }

  /** Creates a builder whose list is the initial clause alone. */
  method CreateQuery(initialQuery: Elem) returns (b: QueryBuilder)
    requires IsValidQuery(initialQuery)
    ensures fresh(b) && b.Valid() && b.queries == [initialQuery]
  {
    b := new QueryBuilder(initialQuery);
  }

  /**
   After a clause and an operator, a following clause is checked and the
   walk resumes at that clause.
   */
  lemma ValidateStep(q: Elem, op: Elem, next: Elem, rest: seq<Elem>)
    requires IsValidQuery(q) && IsOperatorElem(op)
    ensures ValidatePatternWithError([q, op, next] + rest) ==
      if IsValidQuery(next) then ValidatePatternWithError([next] + rest)
      else Err(ExpectedQueryAfterOperator)
  {
    assert ([q, op, next] + rest)[2..] == [next] + rest;
  }

  /** The empty list gets the empty-query text. */
  lemma EmptyQueryMessage()
    ensures Message(ValidatePatternWithError([])) == EmptyQueryText
  {
  }

  /** A list that starts with an operator gets the starts-with-operator text. */
  lemma StartsWithOperatorMessage(q: Elem, rest: seq<Elem>)
    ensures Message(ValidatePatternWithError([Tok("AND"), q] + rest)) == StartsWithOperatorText
  {
  }

  /** A clause followed by a trailing operator gets the ends-with-operator text. */
  lemma EndsWithOperatorMessage(q: Elem)
    requires IsValidQuery(q)
    ensures Message(ValidatePatternWithError([q, Tok("AND")])) == EndsWithOperatorText
  {
  }

  /** Unknown or lower-case tokens after a clause get the expected-operator text. */
  lemma UnknownOperatorMessage(q: Elem, next: Elem)
    requires IsValidQuery(q)
    ensures Message(ValidatePatternWithError([q, Tok("NAND"), next])) == ExpectedOperatorText
    ensures Message(ValidatePatternWithError([q, Tok("and"), next])) == ExpectedOperatorText
    ensures ValidatePatternWithError([q, Obj([]), next]) == Err(ExpectedOperator)
  {
  }

  /** Two operators in a row: the second is not a clause. */
  lemma SequentialOperators(q: Elem, next: Elem)
    requires IsValidQuery(q)
    ensures ValidatePatternWithError([q, Tok("AND"), Tok("OR"), next]) == Err(ExpectedQueryAfterOperator)
  {
  }

  /**
   A nested list that is invalid on its own (empty, starting or ending with
   an operator, two clauses in a row) makes the outer list invalid, whether
   it stands first or after an operator.
   */
  lemma NestedInvalidRejected(inner: seq<Elem>, q: Elem)
    requires ValidatePatternWithError(inner) != Verdict.Valid
    requires IsValidQuery(q)
    ensures ValidatePatternWithError([Chain(inner), Tok("OR"), q]) == Err(MustStartWithQuery)
    ensures ValidatePatternWithError([q, Tok("AND"), Chain(inner)]) == Err(ExpectedQueryAfterOperator)
  {
  }

  /** The type tests' invalid nested lists are each invalid on their own. */
  lemma NestedExamplesInvalid(a: Elem, b: Elem)
    requires IsValidQuery(a) && IsValidQuery(b)
    ensures ValidatePatternWithError([]) != Verdict.Valid
    ensures ValidatePatternWithError([a, Tok("AND")]) != Verdict.Valid
    ensures ValidatePatternWithError([Tok("AND"), a]) != Verdict.Valid
    ensures ValidatePatternWithError([a, b]) != Verdict.Valid
  {
  }

  /** Invalid two levels down still rejects the whole list. */
  lemma DeeplyNestedInvalid(s: Elem, n: Elem, a: Elem)
    requires IsValidQuery(s) && IsValidQuery(n) && IsValidQuery(a)
    ensures ValidatePatternWithError([s, Tok("AND"), Chain([n, Tok("OR"), Chain([a, Tok("AND")])])])
      == Err(ExpectedQueryAfterOperator)
  {
    var inner := Chain([a, Tok("AND")]);
    assert ValidatePatternWithError(inner.elems) == Err(EndsWithOperator);
    assert !IsValidQuery(inner);
    var middle := Chain([n, Tok("OR"), inner]);
    assert ValidatePatternWithError(middle.elems) == Err(ExpectedQueryAfterOperator);
    assert !IsValidQuery(middle);
  }

  /** A single clause, and a single nested valid chain, are valid. */
  lemma SingleNestedChainValid(a: Elem, b: Elem)
    requires IsValidQuery(a) && IsValidQuery(b)
    ensures ValidatePatternWithError([Chain([a, Tok("AND"), b])]) == Verdict.Valid
  {
    assert ValidatePatternWithError([a, Tok("AND"), b]) == Verdict.Valid by {
      assert [a, Tok("AND"), b][2..] == [b];
    }
  }
}
