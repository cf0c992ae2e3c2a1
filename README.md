# Query chains: validator, compiler and builder

A verified model of the core of a small TypeScript library for boolean
search queries. A query is a list of the form clause, operator, clause, …,
where a clause is a field-match object (`{name: "John", age: 30}`) or a
nested list of the same form. The four operators are `AND`, `OR`, `AND NOT`
and `OR NOT`. The library has three pieces, and each has a module here:

- **Validator** (`validator.dfy`). In the library this is a type-level
  computation. Here it is the recursive function `ValidatePatternWithError`.
  It returns `Valid` or the first defect, checked in a fixed order.
  `IsValidQuery` accepts an object, or a nested list that validates on its own.
- **Compiler** (`format.dfy`, `compiler.dfy`). It turns a clause or a chain
  into a Datadog-style search string:
  - strings are quoted without escaping;
  - numbers, booleans and null are not quoted;
  - a list of values becomes `(a OR b)`;
  - the fields of an object are joined by ` AND `;
  - every chain is wrapped in parentheses and its pieces are joined by single
    spaces.

  `CompileQuery` is the source's `compileQuery`. Its loop over a chain's
  elements is the method `CompileParts`, and the loop body's three-way
  dispatch is `CompilePart`. All three are proved against the specification
  function `Rendered`.
- **Builder** (`builder.dfy`). The class `QueryBuilder` keeps the list built
  so far and appends `[op, query]` on each call. Its invariant is that the
  list is a valid chain.

`query_model.dfy` holds the data types. A chain element is `Tok(string)`
(operators stay raw strings, so `"NAND"` or `"and"` can be written down and
rejected), `Obj(fields)` (fields as an ordered sequence of pairs) or
`Chain(elems)`.

`balance.dfy` proves that the compiler's parentheses always match when no
key or string holds a parenthesis. It also shows a one-field object whose
output does not balance, because nothing is escaped.

`compiler_examples.dfy` states the library's own compile examples as lemmas.

`legacy_index.dfy` models the older root `index.ts`. Its validator is
character-for-character the one in `src/index.ts:14-46`, so it is the same
definition here. The module adds `processQuery`, `createQuery`, and that
file's type tests as lemmas.

The code has six reachable rejection texts, and each result carries only a
fixed text, with no position or nesting path. The model follows the code.
The three fallback texts at `src/index.ts:40,42,46` cannot be produced by a
concrete list, so they are not modelled.

## Model

| member | source | states |
|---|---|---|
| QueryModel.IsOperator | src/index.ts:87-90 | a token is an operator exactly when it is one of the four members of `Operators`; matching is exact |
| QueryModel.IsQueryChain | src/index.ts:83-85 | a nested chain is never an operator token and never an object, so the compiler's three-way dispatch picks exactly one branch for it |
| QueryModel.OperatorsAreExact | src/index.ts:2 | "NAND", "and", "or", "NOT" and "" are not operators, and there are exactly four operators |
| Validator.Message | src/index.ts:27-45 | the text of an outcome is "valid" exactly for a valid list, and starts with `ERROR: ` exactly for a rejection |
| Validator.IsValidQuery | src/index.ts:14-21 | every object is a valid clause, and a valid clause is never an operator token |
| Validator.ValidatePatternWithError | src/index.ts:25-46 | the empty-list error is reported exactly for the empty list, and an accepted list has odd length and starts and ends with a valid clause |
| Validator.MessagesDistinct | src/index.ts:25-46 | the six error texts and "valid" are pairwise distinct, so the text alone identifies the outcome |
| Validator.ValidateClassifies | src/index.ts:25-46 | each outcome holds exactly when its position-by-position description holds. Valid: odd length, clauses at even and operators at odd positions. Empty: the list is empty. Starts-with-operator / must-start-with-query: the first element is an operator / is neither. Expected-operator: the first bad position is odd. Ends-with-operator: all positions are right but the length is even. Expected-clause: the first bad position is even and at least 2 |
| Validator.ClauseValidIffWellFormed | src/index.ts:14-21 | an element is accepted as a clause exactly when it is an object or a list that is well formed at every depth of nesting |
| Validator.ChainValidIffWellFormed | src/index.ts:14-46 | the validator accepts a list exactly when it is well formed at every depth: odd length, operators at odd positions, well-formed clauses at even positions |
| Validator.AppendKeepsValid | src/index.ts:32-38 | a valid chain followed by an operator and a valid clause is still valid |
| Validator.SingleClauseValid | src/index.ts:29-31 | `[q]` is valid exactly when `q` is a valid clause, flat or nested |
| Validator.Query | src/index.ts:54-58 | `query` takes only a valid chain and returns it unchanged |
| Format.IntToString | src/index.ts:74 | a number renders as decimal digits, with a leading minus sign exactly when it is negative |
| Format.NatToStringCanonical | src/index.ts:74 | the numeral of a non-negative number has a leading `0` only for zero itself, which is `0` |
| Format.IntToStringCanonical | src/index.ts:74 | after the optional minus sign the digits have no leading zero unless the numeral is `0`: the canonical numeral, which with the round trip below fixes the text |
| Format.IntRoundTrip | src/index.ts:74 | reading back a rendered number gives the same number |
| Format.FormatValue | src/index.ts:70-75 | the text is in double quotes exactly when the value is a string, and then the text between the quotes is the string itself, unescaped |
| Format.ValueRoundTrip | src/index.ts:70-75 | every rendered scalar parses back to the same scalar |
| Format.FormatValueInjective | src/index.ts:70-75 | two scalars render the same exactly when they are equal (`"30"` vs `30`, `"true"` vs `true`, `"null"` vs `null` differ) |
| Format.FormatArrayValue | src/index.ts:78-80 | a list of values renders as a group that opens with `(` and closes with `)` |
| Format.FormatArraySnoc | src/index.ts:78-80 | adding a value to a non-empty list adds ` OR ` and that value's text just before the closing parenthesis |
| Format.FormatArraySmall | src/index.ts:78-80 | the empty list renders as `()` and a one-value list as `(` + value + `)` |
| Format.FormatAll | src/index.ts:79 | the rendered values of a list, one per value, in the list's order |
| Format.JoinStartsWithFirst | src/index.ts:102 | the join of a non-empty list of parts starts with its first part, as each `join` call (also at lines 79 and 125) gives |
| Format.JoinEndsWithLast | src/index.ts:102 | the join of a non-empty list of parts ends with its last part, as each `join` call (also at lines 79 and 125) gives |
| Format.JoinConcat | src/index.ts:102 | joining two non-empty lists of parts puts exactly one separator between their joins |
| Compiler.ValueTextShape | src/index.ts:98-101 | a single value's text starts with `"` exactly when it is a string; a list of values renders as one parenthesised group |
| Compiler.FieldText | src/index.ts:97-101 | a field's text starts with its key followed by a colon |
| Compiler.FieldTextDispatch | src/index.ts:98-101 | after the key and colon comes `formatValue` of a single value or `formatArrayValue` of a list |
| Compiler.FieldTexts | src/index.ts:97 | one `key:value` text per field, in field order |
| Compiler.CompileBaseQuery | src/index.ts:93-103 | an object's text is empty exactly when it has no fields |
| Compiler.CompileBaseQuerySnoc | src/index.ts:97-102 | adding a field adds ` AND ` and its `key:value` at the end, so fields appear in field order |
| Compiler.CompileBaseQuerySingle | src/index.ts:97-101 | a one-field object renders as `key:value` |
| Compiler.RenderedShape | src/index.ts:106-130 | an operator token renders as itself, an object's text is empty exactly when it has no fields, and a chain renders inside one pair of parentheses |
| Compiler.RenderedAll | src/index.ts:113-123 | the parts of a chain are its elements' texts, one per element, in order |
| Compiler.InnerEnds | src/index.ts:125 | inside the parentheses, a chain's text starts with its first element's text and ends with its last element's text |
| Compiler.NonOperatorIsClause | src/index.ts:114-121 | in a valid chain every element that is not an operator is a valid clause at an even position, so the loop never meets a stray token |
| Compiler.CompileQuery | src/index.ts:106-130 | a validated chain compiles to its parts joined by spaces in one pair of parentheses, an object to `compileBaseQuery`; either way exactly `Rendered` of the input |
| Compiler.CompileParts | src/index.ts:111-123 | the loop over a validated chain's elements collects exactly one part per element, in order: `RenderedAll` of the chain |
| Compiler.CompilePart | src/index.ts:114-122 | one element of a validated chain contributes exactly its rendered text: an operator as itself, a nested chain compiled recursively, an object by `compileBaseQuery` |
| Compiler.SingleElementChain | src/index.ts:111-125 | a one-element chain renders as `(` + its element + `)` |
| Compiler.ChainConcat | src/index.ts:113-125 | two chains joined by an operator render as `(` + inner text + ` op ` + inner text + `)`, with the operator verbatim |
| Compiler.ChainSnoc | src/index.ts:113-125 | appending `[op, q]` inserts ` op ` and `q`'s text just before the closing parenthesis |
| Compiler.NestedParentheses | src/index.ts:116-118 | a clause nested in n one-element chains gets n pairs of parentheses |
| Balance.RenderedBalanced | src/index.ts:106-130 | parentheses in the output match whenever no key, string value or token holds a parenthesis |
| Balance.UnescapedParenthesisUnbalances | src/index.ts:72 | the string `")"` is copied unescaped, so `{a: ")"}` renders as `a:")"`, which is not balanced |
| CompilerExamples.ScalarFieldExamples | src/index.ts:70-75 | `name:"John"`, `age:30`, `active:true`, `status:null`, as in src/index.test.ts:246-260 |
| CompilerExamples.SingleElementExample | src/index.ts:125 | `[{name:"John"}]` renders as `(name:"John")`, as in src/index.test.ts:280-282 |
| CompilerExamples.TwoStringList | src/index.ts:78-80 | two strings render as `("a" OR "b")`, as in src/index.test.ts:262-264 |
| CompilerExamples.MixedList | src/index.ts:78-80 | a number, a string and `true` render as `(n OR "s" OR true)`, as in src/index.test.ts:266-268 |
| CompilerExamples.TwoFields | src/index.ts:97-102 | two fields render as `k1:v1 AND k2:v2`, as in src/index.test.ts:270-272 |
| CompilerExamples.ThreeElementChain | src/index.ts:113-125 | `[a, op, b]` renders as `(a op b)`, as in src/index.test.ts:284-298 |
| CompilerExamples.NestedChainExample | src/index.ts:116-118 | `[a, AND, [b, OR, c]]` renders as `(a AND (b OR c))`, as in src/index.test.ts:312-318 |
| CompilerExamples.OpenSnoc | src/index.ts:113-125 | adding an operator and a clause to a chain whose text is `o)` gives `o op q)`: each builder step extends the text just before the closing parenthesis |
| CompilerExamples.FourClauseChainOps | src/index.ts:113-125 | four clauses and any three operators render as one parenthesised group, each operator spaced on both sides |
| CompilerExamples.FourClauseChain | src/index.ts:113-125 | `[a, AND, b, AND NOT, c, OR, d]` renders as `(a AND b AND NOT c OR d)`, as in src/index.test.ts:352-358 |
| Builder.QueryBuilder.constructor | src/index.ts:132-133 | the builder starts with the list `[initialQuery]`, which is a valid chain |
| Builder.QueryBuilder.Build | src/index.ts:136 | returns the accumulated list as a value, which is valid, odd-length and has operators at every odd position |
| Builder.QueryBuilder.Append | src/index.ts:137-152 | appends exactly `[op, query]` and keeps the list a valid chain |
| Builder.QueryBuilder.And | src/index.ts:137-140 | appends exactly `"AND"` and the query, keeps validity and returns the same builder |
| Builder.QueryBuilder.Or | src/index.ts:141-144 | appends exactly `"OR"` and the query, keeps validity and returns the same builder |
| Builder.QueryBuilder.AndNot | src/index.ts:145-148 | appends exactly `"AND NOT"` and the query, keeps validity and returns the same builder |
| Builder.QueryBuilder.OrNot | src/index.ts:149-152 | appends exactly `"OR NOT"` and the query, keeps validity and returns the same builder |
| Builder.ChainAllOperators | src/index.ts:132-156 | one clause and the four calls give the nine-element alternating list, as in src/index.test.ts:226-240; a list built before the calls is still `[a]` afterwards |
| LegacyIndex.ProcessQuery | index.ts:54-58 | `processQuery` takes only a valid chain and returns it unchanged |
| LegacyIndex.CreateQuery | index.ts:69-93 | `createQuery` gives a fresh builder whose list is `[initialQuery]` and valid |
| LegacyIndex.ValidateStep | index.ts:29-38 | after a clause and an operator, the next clause is checked and the walk resumes at it |
| LegacyIndex.EmptyQueryMessage | index.ts:26-27 | `[]` yields the empty-query text |
| LegacyIndex.StartsWithOperatorMessage | index.ts:43-44 | a list that starts with `"AND"` yields the starts-with-operator text |
| LegacyIndex.EndsWithOperatorMessage | index.ts:34-35 | `[q, "AND"]` yields the ends-with-operator text |
| LegacyIndex.UnknownOperatorMessage | index.ts:33-41 | `"NAND"`, `"and"` or an object after a clause yields the expected-operator text |
| LegacyIndex.SequentialOperators | index.ts:36-39 | `[q, "AND", "OR", r]` yields the expected-clause-after-operator error |
| LegacyIndex.NestedInvalidRejected | index.ts:14-21 | an invalid nested list rejects the outer list, both first and after an operator |
| LegacyIndex.NestedExamplesInvalid | index.ts:14-21 | `[]`, `[q, AND]`, `[AND, q]` and `[q, r]` are each invalid on their own |
| LegacyIndex.DeeplyNestedInvalid | index.ts:14-21 | a defect two levels down rejects the whole list |
| LegacyIndex.SingleNestedChainValid | index.ts:29-31 | a single valid nested chain is a valid chain |

## Left out

- The type-level machinery is left out: the `const` type parameters and the `T & ValidatePattern<T>` intersection (`src/index.ts:49-55`, `106-108`). Each becomes a `requires` that the list validates. The builder's `Q extends Query` constraint becomes `requires IsValidQuery(query)`.
- `ValidatePattern<T>` (`src/index.ts:49-50`) is not a separate member. It only turns the validator's result back into a type.
- The three fallback texts (`src/index.ts:40,42,46`) are not modelled. No concrete list reaches them.
- Format.IntToString: numbers are integers only. JavaScript's rendering of fractions, exponents, `NaN` and infinities is floating-point formatting.
- The model does not reproduce the key order of `Object.entries` (`src/index.ts:94`), where integer-like keys come first. An object is an ordered sequence of fields taken as given. Keys are not checked to be unique.
- The compiler's behaviour on input that did not validate is not modelled. An example is a stray non-operator string, which `src/index.ts:120-121` would hand to `Object.entries`. `CompileQuery` requires a valid clause or chain.
- Builder.QueryBuilder.Build: the copy `[...queries]` is modelled as returning a sequence value. A later call cannot change it, and aliasing of the clause objects themselves is not modelled.
- The scratch scripts (`test-*.ts`, `verify-inference.ts`) are not part of this model. They print TypeScript inference results and have no logic of their own.
- The test files are used only as evidence for the example lemmas.
- Nesting depth is unbounded in the model. No stack limit is modelled.
