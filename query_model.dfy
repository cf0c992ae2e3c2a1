/**
 The values a query chain is made of.

 A chain element is a bare token (an operator such as "AND", or any other
 string a caller may have put in the list), a field-match object, or a
 nested list. Operators stay raw strings so that ill-formed tokens such as
 "NAND" or "and" can be represented and rejected by the validator.
 */
module QueryModel {

  /** An optional value, for the parsers that undo the formatting. */
  datatype Option<T> = None | Some(value: T)

  /** A scalar field value. Numbers are modelled as integers. */
  datatype Scalar = Str(s: string) | Num(n: int) | Bool(b: bool) | Null

  /** A field holds one scalar or an ordered list of scalars (mixed kinds allowed). */
  datatype FieldVal = One(v: Scalar) | Many(vs: seq<Scalar>)

  /** One `key: value` pair of a field-match object. */
  type Field = (string, FieldVal)

  /** An element of a query list. An object's fields are kept in iteration order. */
  datatype Elem = Tok(t: string) | Obj(fields: seq<Field>) | Chain(elems: seq<Elem>)

  /** The four operator tokens; matching is exact and case-sensitive. */
  const Operators: set<string> := {"AND", "OR", "AND NOT", "OR NOT"}

  /** Whether a string is one of the four operator tokens. */
  predicate IsOperator(t: string)
    ensures IsOperator(t) <==> t in Operators
  {
    t == "AND" || t == "OR" || t == "AND NOT" || t == "OR NOT"
  }

  /** Whether a list element is an operator token. */
  predicate IsOperatorElem(e: Elem)
  {
    e.Tok? && IsOperator(e.t)
  }

  /** Whether a list element is itself a list (a nested chain). */
  predicate IsQueryChain(e: Elem)
    ensures IsQueryChain(e) ==> !IsOperatorElem(e) && !e.Obj?
  {
    e.Chain?
  }

  /** Operators are exact: other spellings, including lower case, are not operators. */
  lemma OperatorsAreExact()
    ensures !IsOperator("NAND") && !IsOperator("and") && !IsOperator("or")
    ensures !IsOperator("AND  NOT") && !IsOperator("NOT") && !IsOperator("")
    ensures |Operators| == 4
  {
    assert Operators == {"AND", "OR"} + {"AND NOT", "OR NOT"};
  }
}
