# vine-lang core in Dafny

A model of the core of vine-lang, a small scripting language written in
TypeScript. The model covers the lexer, the recursive-descent parser and its
template-string splitter, the syntax-tree node layer, the value helpers, the
scope chain, the tree-walking interpreter, the error stack and the
debugger's breakpoint state. Along with each piece come proofs of what it
promises. Each module follows one source file:

| file | module | models |
|---|---|---|
| `wrappers.dfy` | `Wrappers` | `Option` and `Result` |
| `host.dfy` | `Host` | the JavaScript primitives the source relies on: numbers read from text (integers, the infinities and NaN, with the other numeric forms recognised), `String(n)`, `trim`, truthiness, `===` on primitives |
| `keywords.dfy` | `TokenKinds` | `TokenType`, `Token` and the `Keywords` table (src/keywords/index.ts) |
| `lexer.dfy` | `Lexer` | `tokenlize` and its character classes (src/token/index.ts), as a scanner method proved against a line-by-line specification |
| `ast.dfy` | `Ast` | the node shapes the parser builds |
| `grammar.dfy` | `Grammar` | the grammar the parser implements, one function per parse routine, over a token sequence and a read position |
| `grammar_facts.dfy` | `GrammarFacts` | what that grammar promises: token consumption, nesting, fused operators, array keys, template segments |
| `parser.dfy` | `Parsing` | the `Parser` class (src/parser/index.ts): a token queue consumed in place, each method proved to do what its grammar function says |
| `template.dfy` | `Templates` | `TemplateStringParser` (src/parser/template.ts) |
| `unit.dfy` | `Units` | `UnitNode` and `createUnitNode` (src/unit/index.ts), over an arena of node objects |
| `literal.dfy`, `values.dfy`, `realvalue.dfy`, `utils.dfy`, `tokenunit.dfy` | `Literals`, `Values`, `RealValues`, `Utils`, `TokenUnits` | `LiteralFn`, `UseEnvFn`, `toRealValue`, `mapToObject`, the helpers of src/utils/index.ts and the `TokenUnit` class |
| `environment.dfy` | `Environments` | `Environment` (src/environment/index.ts), as a store of frames indexed by environment id |
| `errors.dfy` | `Errors` | `ErrorStack` and `ErrorStackManager` (src/error/index.ts) |
| `interpreter_state.dfy`, `evaluation.dfy`, `evaluation_facts.dfy`, `interpreter.dfy` | `InterpreterState`, `Evaluation`, `EvaluationFacts`, `Interpreters` | the interpreter (src/interpreter/index.ts): the state it works on, `interpretStmt`/`interpretExpression` as functions, what they promise, and the `Interpreter` class whose loops are proved against those functions |
| `debugger.dfy` | `Debug` | the breakpoint and pause state of `Debugger` (src/debug/index.ts) |

The interpreter's state is the store of environments, the error stack and
the directory name. Every evaluation function ends in a value, a thrown
error, running out of fuel, or a case outside the model (`Unmodelled`,
which names the case). Every one of them is proved to keep the store's
invariant. That invariant says that environments are only added, that each
parent is older than its child, that every value refers to existing
environments, and that errors are only appended.

Where the code's behaviour is surprising, the model does what the code does,
except in two places that never end as written: the template scan and the
tree walk. The surprising behaviours it keeps are these:

- `match` never consumes a token of the wrong kind.
- `setVariable` only writes a binding held by the environment itself.
- `throwAll` raises the first recorded error.
- A boolean token converts by the truthiness of its text, so the text "false" is true as an `if` condition.
- In `parseSwitchCase` the `isDefault` flag is inverted. A `case` arm builds a `DefaultCaseBlockStatement`. A `default` arm builds a `CaseBlockStatement` with no test.
- `logicOperate`'s `<=` computes `>=`, so `3 <= 2` is true wherever the interpreter compares.

Four places are modelled both as written and as evidently intended (see
"## Findings"). The `<=` comparison runs as written throughout the model;
its corrected twin, `TokenUnits.LogicTokensIntended`, is kept beside it. So
does the `if` test, whose corrected reading is `TokenUnits.ConditionHolds`. The
other two never end as written, and a function must end, so the template
scan and the tree walk that the rest of the model uses are the corrected
ones. "## Left out" names each member this affects.

## Model

| member | source | states |
|---|---|---|
| TokenKinds.IsKeywordIsTableMembership | src/token/index.ts:6 | `isKeyword(w)` holds exactly when `w` is a key of the `Keywords` table |
| TokenKinds.LiteralWords | src/keywords/index.ts:57-61 | `true` and `false` map to the boolean kind; `NaN` and `nil` map to kinds of their own |
| TokenKinds.ConstIsNotAKeyword | src/keywords/index.ts:73 | the constant keyword is `cst`, and `const` is not reserved |
| TokenKinds.KeywordKindsAreReserved | src/keywords/index.ts:57-84 | no reserved word except `true`/`false` maps to the identifier, number, string or boolean kind |
| TokenKinds.Ordinal | src/keywords/index.ts:1-45 | the number the enum gives a kind is below 41 |
| TokenKinds.OrdinalIsPosition | src/keywords/index.ts:1-45 | reading a kind's number back gives the kind, so the numbering follows declaration order |
| TokenKinds.OrdinalInjective | src/keywords/index.ts:1-45 | two kinds have the same number exactly when they are the same kind |
| Errors.ErrorStackCode | src/error/index.ts:21-52 | the message is kept; the code is SYNTAX_ERROR exactly when no environment is given and INTERPRETER_ERROR exactly when one is; `name` equals `code` |
| Errors.ErrorStackCause | src/error/index.ts:32-47 | the position is the token's, or the Literal's own token's, and null without a token; the file path is the environment's, null when missing or empty |
| Errors.ErrorStackManager.constructor | src/error/index.ts:55-56 | a new manager holds no errors |
| Errors.ErrorStackManager.AddError | src/error/index.ts:57-63 | the error is appended at the end, so `queryError` then gives the earlier errors followed by it, and the manager itself is returned |
| Errors.ErrorStackManager.Throw | src/error/index.ts:64-69 | nothing is raised on an empty stack; otherwise the last error added is raised |
| Errors.ErrorStackManager.ThrowAll | src/error/index.ts:70-77 | nothing is raised on an empty stack; otherwise the first error is raised, because the callback's throw stops `forEach` |
| Errors.ThrowAfterAdd | src/error/index.ts:57-69 | after `addError(e)`, `throw` raises `e` |
| Errors.ThrowAllAfterAdd | src/error/index.ts:57-77 | after `addError(e)`, `throwAll` raises the same error as before, or `e` when the stack was empty |
| Errors.ThrowAndThrowAllAgree | src/error/index.ts:64-77 | `throw` and `throwAll` raise the same error exactly when the stack is empty or its first and last entries are equal |
| Errors.RaiseFresh | src/parser/index.ts:46 | a fresh manager that has one error added raises exactly that error |
| Literals.LiteralFn | src/utils/LiteralFn.ts:4-29 | the result is a Literal; a Literal argument comes back with its token; a primitive is wrapped at line 0, column 0 with the primitive as its value |
| Literals.LiteralFnKinds | src/utils/LiteralFn.ts:10-24 | numbers get the number kind, strings the string kind and booleans the boolean kind; `null` and `undefined` get nil, in both directions |
| Literals.LiteralFnKeepsLiterals | src/utils/LiteralFn.ts:7-9 | a Literal argument is returned unchanged |
| Values.UseEnvFn | src/utils/UseEnvFn.ts:8-15 | the record has the env kind, refers to the given environment, and sits at line 0, column 0 |
| Values.UseEnvFnInjective | src/utils/UseEnvFn.ts:8-15 | two records are equal exactly when they refer to the same environment |
| Utils.NilLiteralConvertsToNil | src/utils/index.ts:49-56 | a nil literal converts to `null`, which `isNil` accepts |
| Utils.NilLiteralsFromLiteralFn | src/utils/index.ts:49-52 | `isNilLiteral` accepts the literal `LiteralFn` builds exactly for `null` and `undefined` |
| Utils.OldLiteralFn | src/utils/index.ts:4-15 | the result is a Literal at line 0, column 0 holding the value |
| Utils.OldLiteralFnAgrees | src/utils/index.ts:4-15 | the old `LiteralFn` equals the current one on numbers, strings and booleans; it gives `null` and `undefined` the number kind where the current one gives nil |
| Utils.OldMapToObjectLoop | src/utils/index.ts:41-47 | the loop returns what the old `mapToObject` specifies, including its failure on a non-map |
| Utils.OldToRealValueAgrees | src/utils/index.ts:17-38 | the old `toRealValue` agrees with the current one on the kinds its switch handles; it converts booleans by truthiness and nil to `null`; it returns truthy identifier and index tokens as they are |
| Utils.OldStringKeysCollide | src/utils/index.ts:41-47 | two string keys both name the property "undefined", so the later value overwrites the earlier one |
| RealValues.LiteralRoundTrip | src/utils/toRealValue.ts:5-19 | converting the literal built from a primitive gives back that primitive, except `undefined`, which is stored with the nil kind and comes back as `null` |
| RealValues.HandledKinds | src/utils/toRealValue.ts:6-19 | each kind the switch handles converts as its arm says (index and number to a number, string and identifier to text, boolean by truthiness, NaN, nil to `null`), the same for a Literal and for its bare token |
| RealValues.FalseTextIsTrue | src/utils/toRealValue.ts:14-15 | a boolean token holding the text "false" converts to `true` |
| RealValues.DefaultBranch | src/utils/toRealValue.ts:20-27 | outside the switch, a token with a truthy value comes back as itself and a falsy one fails as a non-Map; ranges and `null` fail in `mapToObject`; functions and other primitives come back unchanged |
| RealValues.MapToObjectFailures | src/utils/mapToObject.ts:8-11 | a non-Map throws "obj is not Map" with its `typeof`, and an empty Map fails reading its first entry |
| RealValues.EntriesKeepShape | src/utils/mapToObject.ts:15-31 | the loop keeps the array or object shape it starts with |
| RealValues.ArrayExactlyForIndexKeys | src/utils/mapToObject.ts:12-14 | the result is an array exactly when the first key is an index literal |
| RealValues.ArrayEntriesInOrder | src/utils/mapToObject.ts:18-25 | in array mode the loop appends every converted value, in insertion order, after what it already holds |
| RealValues.ArrayMode | src/utils/mapToObject.ts:12-31 | a successful array-mode conversion holds exactly the converted values, in order |
| RealValues.ObjectKeysStored | src/utils/mapToObject.ts:16-28 | in object mode every entry's key names a stored property, and no property already stored disappears |
| RealValues.ObjectValuesStored | src/utils/mapToObject.ts:16-28 | in object mode each value is stored under its key's name unless a later entry reuses the name; names no later entry reuses keep their values |
| RealValues.ObjectStep | src/utils/mapToObject.ts:21-28 | one pass of the object-mode loop stores the entry's converted value under its key's name |
| RealValues.ObjectMode | src/utils/mapToObject.ts:12-31 | a successful object-mode conversion stores each value under its converted key, and the last of several equal keys wins |
| RealValues.NestedMaps | src/utils/mapToObject.ts:17-29 | nested Maps go through `mapToObject` again; every other value goes through `toRealValue` |
| RealValues.MapToObjectLoop | src/utils/mapToObject.ts:5-31 | the loop returns what `mapToObject` specifies, its failures included |
| TokenUnits.ValidBaseType | src/utils/TokenUnit.ts:10-21 | an operand passes exactly when it is a non-null primitive, a function, or a token of the number, string or boolean kind |
| TokenUnits.RelateAgreesElsewhere | src/utils/TokenUnit.ts:108-119 | the corrected comparison agrees with the switch as written on every operator other than `<=`, known or not |
| TokenUnits.TokenUnit.constructor | src/utils/TokenUnit.ts:7-9 | the unit holds the given token, which `getToken` gives back |
| TokenUnits.TokenUnit.AddOp | src/utils/TokenUnit.ts:22-42 | the outcome is that of TokenUnits.AddTokens: on success the unit holds the sum or concatenation and returns itself; a throw, or an operand or sum outside the integers within 2^53, the infinities and NaN, leaves the token as it was |
| TokenUnits.TokenUnit.SubOp | src/utils/TokenUnit.ts:43-63 | the outcome is that of TokenUnits.SubTokens: on success the unit holds the text of the difference and returns itself; a throw, or an operand or difference outside the numbers held exactly, leaves the token as it was |
| TokenUnits.TokenUnit.MulOp | src/utils/TokenUnit.ts:64-84 | the outcome is that of TokenUnits.MulTokens: on success the unit holds the text of the product and returns itself; a throw, or an operand or product outside the numbers held exactly, leaves the token as it was |
| TokenUnits.TokenUnit.DivOp | src/utils/TokenUnit.ts:85-104 | the outcome is that of TokenUnits.DivTokens: on success the unit holds the text of the quotient ("Infinity", "-Infinity" or "NaN" for a zero divisor) and returns itself; a throw, or a quotient that is not an integer, leaves the token as it was |
| TokenUnits.TokenUnit.LogicOperate | src/utils/TokenUnit.ts:105-131 | the outcome is that of TokenUnits.LogicTokens: on success the unit holds the boolean result of the comparison as written (`<=` computing `>=`) and returns itself; a throw, or a comparison that converts a number held inexactly, leaves the token as it was |
| TokenUnits.UnknownLiteralTypeThrows | src/utils/TokenUnit.ts:17-19 | a right-hand token of any kind other than number, string or boolean makes all four arithmetic operations throw "Unknown literal type" |
| TokenUnits.ArithmeticKeepsPosition | src/utils/TokenUnit.ts:40-102 | every arithmetic result keeps the left token's kind, line and column; `sub`, `mul` and `div` store text |
| TokenUnits.AddNumbersAndStrings | src/utils/TokenUnit.ts:22-42 | two number tokens add as numbers (NaN and the infinities included), two string tokens concatenate, and a number plus a string concatenates the number's text; an operand or sum the model does not hold exactly ends outside the model |
| TokenUnits.AddOnNumerals | src/utils/TokenUnit.ts:22-42 | on number tokens reading as the integers x and y, `add` stores the number x + y when x, y and the sum lie within 2^53, where a double is exact, and ends outside the model otherwise |
| TokenUnits.IntegerOperand | src/utils/TokenUnit.ts:25-26 | a token whose text `Number` reads as the integer x is read exactly precisely when x lies within 2^53 |
| TokenUnits.SubOnNumerals | src/utils/TokenUnit.ts:43-63 | on number tokens reading as the integers x and y, `sub` stores the text of x - y when x, y and the difference lie within 2^53, and ends outside the model otherwise |
| TokenUnits.MulOnNumerals | src/utils/TokenUnit.ts:64-84 | on number tokens reading as the integers x and y, `mul` stores the text of x * y when x, y and the product lie within 2^53, and ends outside the model otherwise |
| TokenUnits.DivOnNumerals | src/utils/TokenUnit.ts:85-104 | on number tokens reading as integers x and y within 2^53, `div` stores "NaN", "Infinity" or "-Infinity" for a zero divisor by the sign of x, the text of x / y when y divides x, and ends outside the model on any other quotient |
| TokenUnits.SubTextReadsBack | src/utils/TokenUnit.ts:61 | the text `sub` stores is read back by `Number` exactly, as the number it was written from |
| TokenUnits.MulTextReadsBack | src/utils/TokenUnit.ts:82 | the text `mul` stores is read back by `Number` exactly |
| TokenUnits.DivTextReadsBack | src/utils/TokenUnit.ts:102 | the text `div` stores, "Infinity" included, is read back by `Number` exactly |
| TokenUnits.InfinityText | src/utils/TokenUnit.ts:102 | "Infinity", the text a division of a positive number by zero stores, reads as positive infinity and exactly |
| TokenUnits.InfinityPlusNumber | src/utils/TokenUnit.ts:22-42 | `add` on a number token holding positive infinity and a number within 2^53 stores positive infinity |
| TokenUnits.InfinityAboveNumber | src/utils/TokenUnit.ts:105-131 | `>` between a number token holding positive infinity and a number within 2^53 gives "true" |
| TokenUnits.LogicIsBoolean | src/utils/TokenUnit.ts:125-129 | a comparison gives a boolean-kind token holding "true" or "false" at the left token's line and column |
| TokenUnits.LessEqualAsWritten | src/utils/TokenUnit.ts:120-121 | as written, `<=` computes `>=`, so `3 <= 2` is true |
| TokenUnits.RelateLessEqual | src/utils/TokenUnit.ts:120-121 | with the arm corrected, `<=` on two primitives holds exactly when the right one is not below the left one |
| TokenUnits.LessEqualOnNumerals | src/utils/TokenUnit.ts:105-131 | the corrected half: in LogicTokensIntended, `x <= y` on number tokens gives "true" exactly when x is at most y |
| TokenUnits.LessEqualOnNumeralsAsWritten | src/utils/TokenUnit.ts:120-121 | as written, `logicOperate` answers `x <= y` on number tokens with "true" exactly when x is at least y, so `3 <= 2` stores "true" |
| TokenUnits.LogicAgreesElsewhere | src/utils/TokenUnit.ts:105-131 | `logicOperate` as written and its corrected twin give the same result for every operator other than `<=`, failures included |
| TokenUnits.ComparisonConditionIntended | src/interpreter/index.ts:539-540 | the corrected half of the `if` finding: reading the result's text as the ternary does, `x > y` on number tokens within 2^53 holds exactly when x is greater than y |
| TokenUnits.UnknownOperatorThrows | src/utils/TokenUnit.ts:108-128 | an operator outside the switch leaves the result undefined, and reading its `toString` throws |
| Lexer.SplitLines | src/token/index.ts:13 | splitting on newlines gives at least one line |
| Lexer.Step | src/token/index.ts:26-135 | one pass of the character loop succeeds only by moving forward within the line |
| Lexer.ReadDigits | src/token/index.ts:44-53 | the digit loop reads the maximal run of digits and stops where it ends |
| Lexer.ReadWord | src/token/index.ts:55-63 | the word loop reads the maximal run of letters and digits and stops where it ends |
| Lexer.ReadQuoted | src/token/index.ts:120-128 | the string loop reads up to the first matching quote, or to the end of the line |
| Lexer.ReadRest | src/token/index.ts:89-96 | a single-line comment takes the rest of the line |
| Lexer.KindOfWord | src/token/index.ts:64-73 | a word gets its keyword's kind when it is reserved, with `true`/`false` as booleans, and the identifier kind otherwise |
| Lexer.StepAt | src/token/index.ts:27-135 | the loop body, run on the scanner's variables, does what one step of the character loop specifies |
| Lexer.ScanLine | src/token/index.ts:26-136 | the character loop over one line ends as scanning that line specifies, or with the message thrown |
| Lexer.Tokenize | src/token/index.ts:11-148 | `tokenlize` returns the tokens the lexer specifies, or the message it throws |
| Lexer.DigitRunMaximal | src/token/index.ts:48-51 | a digit run holds only digits and ends at the line's end or at a non-digit |
| Lexer.WordRunMaximal | src/token/index.ts:59-62 | a word holds only letters and digits and ends at the line's end or at another character |
| Lexer.QuoteEndFirst | src/token/index.ts:125-128 | a string's text holds no closing quote and ends at the line's end or at the quote |
| Lexer.NumberToken | src/token/index.ts:44-54 | outside a comment, a digit starts one number token holding the maximal digit run at the current line and column, and the column moves past the run |
| Lexer.WordToken | src/token/index.ts:55-74 | outside a comment, a letter starts one word token holding the maximal run; its kind is the keyword's exactly when the word is reserved |
| Lexer.StringToken | src/token/index.ts:120-130 | a quote starts a string token one column after the quote, holding the text up to the matching quote or the line's end; the column moves by the text's length plus two, even without a closing quote |
| Lexer.UnknownCharStops | src/token/index.ts:133-134 | a character outside a comment that no rule accepts stops the scan with its line and column in the message |
| Lexer.LexNumber | src/token/index.ts:44-54 | a digit run lexes to one number token at line 1, column 1 |
| Lexer.LexDoubleEquals | src/token/index.ts:75-77 | operators are single characters, so `==` is two operator tokens |
| Lexer.LexCst | src/token/index.ts:64-70 | `cst` lexes as the constant keyword |
| Lexer.LexConst | src/token/index.ts:71-73 | `const` lexes as an ordinary identifier |
| Lexer.LexMultilineComment | src/token/index.ts:29-42 | a multi-line comment becomes one comment token holding its text and line break, at the line where it ends and the column where it began |
| Lexer.LexUnterminatedComment | src/token/index.ts:144-146 | a multi-line comment still open at the end of the input is an error |
| Lexer.LexUnknownChar | src/token/index.ts:133-134 | an unknown character is reported with its line and column |
| Lexer.NeverEmptyLine | src/keywords/index.ts:9 | the lexer never produces an `emptyLine` token |
| Lexer.TokensInLineOrder | src/token/index.ts:20-22 | every token lies on a line of at least 1, and line numbers never decrease along the tokens |
| Environments.LookupKey | src/environment/index.ts:99 | the key `toRealValue` gives a name: a primitive when the conversion gives one, and no key otherwise |
| Environments.Resolve | src/environment/index.ts:73-88 | a successful resolution names an existing environment |
| Environments.ResolvedHasBinding | src/environment/index.ts:73-88 | a resolution ends at an environment that holds the name itself, not as an environment reference |
| Environments.ResolveFuelMonotone | src/environment/index.ts:73-88 | more stack never changes a resolution that ended without running out |
| Environments.ResolveRules | src/environment/index.ts:74-87 | a plain local binding resolves here; a local environment reference resolves inside the referenced environment; a miss defers to the parent; a miss at the root fails with "Resolve variable … not declared" |
| Environments.ResolveMissDefersToParent | src/environment/index.ts:84-87 | a name missing here resolves as it does from the parent |
| Environments.NewEnvValid | src/environment/index.ts:25-33 | a new environment keeps the store's invariant: parents come first and every reference names an existing environment |
| Environments.DeclareValid | src/environment/index.ts:89-96 | declaring keeps the store's invariant |
| Environments.SetValid | src/environment/index.ts:103-111 | setting keeps the store's invariant |
| Environments.DeleteValid | src/environment/index.ts:112-120 | deleting keeps the store's invariant |
| Environments.LinkValid | src/environment/index.ts:34-36 | linking keeps the store's invariant |
| Environments.NewEnvContents | src/environment/index.ts:25-61 | a new environment holds `true`, `false` and the global members as static bindings and nothing else, and takes its parent's file path when that is non-empty |
| Environments.DeclareRules | src/environment/index.ts:89-96 | declaring fails exactly when this environment's own table has the name, whatever the parents hold; on success it binds the name here, marks it static only when asked, and leaves every other environment alone |
| Environments.GetAfterDeclare | src/environment/index.ts:89-102 | after declaring a name no alias renames, `getVariable` in the same environment gives the value |
| Environments.GetFromParent | src/environment/index.ts:97-102 | a binding that only the parent holds is read through the child |
| Environments.SetFailures | src/environment/index.ts:103-109 | `setVariable` fails on a static name, and on a name this environment does not hold itself even when a parent declares it |
| Environments.SetReplacesResolvedBinding | src/environment/index.ts:103-111 | on success `setVariable` replaces exactly the binding the name resolves to, and nothing else changes |
| Environments.DeleteRules | src/environment/index.ts:112-120 | `deleteVariable` fails like `setVariable`, and otherwise removes only this environment's binding of the name |
| Environments.ReplaceRules | src/environment/index.ts:121-124 | `replaceVariable` succeeds exactly when `deleteVariable` does, and leaves the name bound to the new value and not static |
| Environments.LinkRules | src/environment/index.ts:34-36 | `link` overwrites without a declared check, and the name then resolves inside the linked environment |
| Environments.SetExposeRules | src/environment/index.ts:46-49 | `setExpose` rejects a non-Literal and otherwise adds the converted name to the expose set, leaving the rest alone |
| Environments.EnvironmentStore.constructor | src/environment/index.ts:15-24 | a new store holds no environments |
| Environments.EnvironmentStore.NewEnvironment | src/environment/index.ts:25-33 | appends the environment the constructor builds, and keeps the invariant |
| Environments.EnvironmentStore.DeclareVariable | src/environment/index.ts:89-96 | declares as specified, and on failure leaves every environment unchanged |
| Environments.EnvironmentStore.ResolveEnv | src/environment/index.ts:73-88 | the recursion ends where resolution is specified to end |
| Environments.EnvironmentStore.GetVariable | src/environment/index.ts:97-102 | returns the value reading the name is specified to give |
| Environments.EnvironmentStore.SetVariable | src/environment/index.ts:103-111 | sets as specified, and on failure leaves every environment unchanged |
| Environments.EnvironmentStore.DeleteVariable | src/environment/index.ts:112-120 | deletes as specified, and on failure leaves every environment unchanged |
| Environments.EnvironmentStore.ReplaceVariable | src/environment/index.ts:121-124 | replaces as specified, keeping the invariant; a failed delete changes nothing, and when the delete succeeds but the declare fails the deletion stays and the declare's error is returned |
| Environments.EnvironmentStore.LinkEnv | src/environment/index.ts:34-36 | stores the environment reference, keeping the invariant |
| Environments.EnvironmentStore.SetAlias | src/environment/index.ts:37-39 | records the alias, keeping the invariant |
| Environments.EnvironmentStore.SetExposeOf | src/environment/index.ts:46-52 | adds to the expose set as specified, so `getExpose` then gives the old set plus the converted name; on failure changes nothing |
| Environments.EnvironmentStore.SetPath | src/environment/index.ts:40-45 | sets this environment's file path, which `getFilePath` then gives back, keeping the invariant |
| Environments.FilePathRoundTrip | src/environment/index.ts:40-45 | `getFilePath` gives back what `setFilePath` stored, and no other environment changes |
| InterpreterState.KeepsTrans | src/interpreter/index.ts:354-382 | two evaluation steps that each keep the invariant (store only grows, errors only appended, values live) compose into one that keeps it |
| InterpreterState.HostFailure | src/interpreter/index.ts:425-428 | a failed environment operation or conversion is thrown with its `${e}` text, and only the failures outside the model leave it |
| InterpreterState.Raise | src/error/index.ts:57-69 | `addError(new ErrorStack(...)).throw()` appends the new error, leaves the rest of the state alone, and throws exactly that error, which is now the last one recorded |
| InterpreterState.DeclareIn | src/interpreter/index.ts:425-428 | a declaration evaluates to `undefined` and stores what `declareVariable` stores, or throws its failure with the state unchanged |
| InterpreterState.DeclareInChild | src/interpreter/index.ts:192-193 | a new child of `env` is appended, the older environments stay as they were, and the name is declared in the child |
| InterpreterState.FunDeclStep | src/interpreter/index.ts:383-406 | declaring a function keeps the evaluator's invariant |
| InterpreterState.MemberOf | src/interpreter/index.ts:429-450 | a member read gives a value whose environments all exist |
| InterpreterState.Chars | src/interpreter/index.ts:586-588 | a string enumerates as its characters, each a string of its own, in order |
| InterpreterState.BindItems | src/interpreter/index.ts:396-399 | binding items by position keeps the invariant, adds no environment and only grows the existing ones |
| InterpreterState.BindArgs | src/interpreter/index.ts:390-401 | binding a declared function's arguments keeps the invariant, adds no environment and only grows the existing ones |
| InterpreterState.BindLambda | src/interpreter/index.ts:584-588 | binding a lambda's arguments keeps the invariant, adds no environment and only grows the existing ones |
| Evaluation.Exec | src/interpreter/index.ts:137-177 | `interpretStmt` keeps the store invariant: the store stays sound and only grows, errors are only appended, the module directory is unchanged and a value it gives is live |
| Evaluation.Eval | src/interpreter/index.ts:455-646 | `interpretExpression` keeps the same store invariant on every kind of expression |
| Evaluation.LiteralValue | src/interpreter/index.ts:461-477 | an identifier lookup, including its "Literal error" failure, keeps the store invariant and gives a live value |
| Evaluation.VarDecl | src/interpreter/index.ts:425-428 | a variable declaration keeps the store invariant (what it binds: EvaluationFacts.VariableDeclarationRules) |
| Evaluation.Block | src/interpreter/index.ts:354-382 | a block keeps the store invariant (its order and early stop: EvaluationFacts.BlockRunsInOrder, BlockStopsAtReturn) |
| Evaluation.BlockFrom | src/interpreter/index.ts:356-381 | the statement loop of a block keeps the store invariant from any statement on |
| Evaluation.EvalList | src/interpreter/index.ts:410-412 | the arguments of a call give one value per argument node, in a live host array, and keep the store invariant |
| Evaluation.Call | src/interpreter/index.ts:408-424 | a call keeps the store invariant (its `catch`: EvaluationFacts.CallCatchesPrint) |
| InterpreterState.Print | src/libs/global/index.ts:19-40 | `print` gives `undefined`; a Map not tagged as an array never fails, and any other argument fails exactly when `toRealValue` fails on it, with the same error |
| Evaluation.Apply | src/interpreter/index.ts:387-401 | applying a value keeps the store invariant (what it runs: EvaluationFacts.CallRunsInChildOfHome, CallSeesFirstArgumentOnly) |
| Evaluation.Member | src/interpreter/index.ts:429-450 | a member access keeps the store invariant and gives a live value |
| Evaluation.Assign | src/interpreter/index.ts:338-353 | an assignment, including its "AssignmentExpression error" failure, keeps the store invariant |
| Evaluation.If | src/interpreter/index.ts:323-336 | an `if` keeps the store invariant (its branches: EvaluationFacts.IfRules) |
| Evaluation.Ternary | src/interpreter/index.ts:536-557 | a ternary keeps the store invariant (its branches: EvaluationFacts.TernaryOnBooleanToken) |
| Evaluation.Binary | src/interpreter/index.ts:478-496 | arithmetic keeps the store invariant and its value is live |
| Evaluation.Logic | src/interpreter/index.ts:530-535 | a comparison keeps the store invariant; it goes through `logicOperate` as written, `<=` included (its value: EvaluationFacts.ComparisonGivesBooleanText) |
| Evaluation.Range | src/interpreter/index.ts:564-569 | a range expression keeps the store invariant and gives a live range record |
| Evaluation.Template | src/interpreter/index.ts:575-581 | a template literal keeps the store invariant |
| Evaluation.ArrayItems | src/interpreter/index.ts:497-507 | the array-literal loop keeps the store invariant and gives a live array (its entries: EvaluationFacts.ArrayEntriesFollowItems) |
| Evaluation.ObjectProps | src/interpreter/index.ts:508-523 | the object-literal loop keeps the store invariant, also when a failed key's error stays recorded |
| Evaluation.For | src/interpreter/index.ts:295-321 | a `for` statement of either kind keeps the store invariant |
| Evaluation.RangeLoop | src/interpreter/index.ts:304-308 | the counting loop keeps the store invariant over all its turns (what each turn adds: EvaluationFacts.RangeLoopOverEmptyBlock) |
| Evaluation.RangeTurn | src/interpreter/index.ts:305-307 | one counting turn keeps the store invariant |
| Evaluation.MapLoop | src/interpreter/index.ts:313-319 | the `for...in` loop keeps the store invariant over all its turns |
| Evaluation.ArrayTurn | src/interpreter/index.ts:314-318 | one `for...in` turn keeps the store invariant |
| Evaluation.BindLoopItem | src/interpreter/index.ts:317 | binding the loop item keeps the store invariant |
| Evaluation.Switch | src/interpreter/index.ts:281-293 | a switch keeps the store invariant (the case it runs: EvaluationFacts.SwitchTakesFirstMatch) |
| Evaluation.Cases | src/interpreter/index.ts:283-292 | the case loop keeps the store invariant from any case on |
| Evaluation.Expose | src/interpreter/index.ts:207-222 | `expose` keeps the store invariant (what it exposes: EvaluationFacts.ExposeFunctionDeclaration) |
| Evaluation.Task | src/interpreter/index.ts:203-205 | a task declaration keeps the store invariant |
| Evaluation.Run | src/interpreter/index.ts:184-201 | a run statement keeps the store invariant (its stages: EvaluationFacts.StagesRunInOrder) |
| Evaluation.Stages | src/interpreter/index.ts:191-195 | the stage loop keeps the store invariant over all its stages |
| Evaluation.StageTurn | src/interpreter/index.ts:192-194 | one stage keeps the store invariant, and the callee's result stays live |
| Evaluation.Wait | src/interpreter/index.ts:179-182 | a wait statement keeps the store invariant |
| Evaluation.ToStage | src/interpreter/index.ts:617-627 | the ToExpression case, including its "ToExpression error" rethrow, keeps the store invariant |
| Evaluation.Interpret | src/interpreter/index.ts:99-135 | `interpret` keeps the store invariant (what it throws: EvaluationFacts.ProgramThrowsFirstError) |
| Evaluation.RunProgram | src/interpreter/index.ts:111-133 | the statement loop of `interpret` keeps the store invariant from any statement on |
| EvaluationFacts.BlockStopsAtReturn | src/interpreter/index.ts:362-365 | nothing after a ReturnStatement runs: the block behaves as the block cut just after it |
| EvaluationFacts.BlockRunsInOrder | src/interpreter/index.ts:356-381 | with no return among them, running `body + [s]` is running `body` and then `s` where it left off, and the block's value is the last statement's |
| EvaluationFacts.EmptyBlock | src/interpreter/index.ts:355-381 | an empty block gives `undefined` and changes nothing |
| EvaluationFacts.IfRules | src/interpreter/index.ts:323-336 | `true` runs the consequent, `false` the alternate, and any other condition records and throws "Condition must be a boolean" with the environment's file path |
| EvaluationFacts.ComparisonGivesBooleanText | src/interpreter/index.ts:530-535 | a comparison that evaluates gives a boolean-kind token holding "true" or "false" |
| EvaluationFacts.EvalCompare | src/interpreter/index.ts:530-535 | a CompareExpression is evaluated by `logicOperate` on its two sides |
| EvaluationFacts.IfOnComparisonTakesConsequent | src/interpreter/index.ts:323-329 | an `if` over a comparison that evaluates runs its consequent whether the comparison holds or not |
| EvaluationFacts.ComparisonNodeGivesBooleanText | src/interpreter/index.ts:530-535 | evaluating a comparison node gives a boolean-kind token holding "true" or "false" |
| EvaluationFacts.IfOnBooleanText | src/interpreter/index.ts:323-329 | the text "false" converts to a truthy boolean, so an `if` over such a token runs its consequent |
| EvaluationFacts.TernaryOnComparison | src/interpreter/index.ts:536-557 | a ternary over a comparison takes the consequent exactly when the comparison's text is "true" |
| EvaluationFacts.TernaryOnBooleanToken | src/interpreter/index.ts:536-557 | a ternary over a boolean-kind token takes the consequent exactly when its text is "true", and the alternate otherwise |
| EvaluationFacts.FirstCase | src/interpreter/index.ts:283-291 | the case a switch selects, when there is one, lies among the cases not yet tried |
| EvaluationFacts.TokenCaseMatches | src/interpreter/index.ts:288 | a token case matches a token subject exactly when kind and value are strictly equal |
| EvaluationFacts.SwitchTakesFirstMatch | src/interpreter/index.ts:281-293 | a switch runs the block of the first case without a test or with a matching test, in source order, and gives `null` when none matches |
| EvaluationFacts.RangeLoopUnfold | src/interpreter/index.ts:304-308 | the counting loop is its first turn followed, after a normal turn, by the loop from the next number |
| EvaluationFacts.MapLoopUnfold | src/interpreter/index.ts:313-319 | the `for...in` loop is its first turn followed, after a normal turn, by the loop from the next element |
| EvaluationFacts.LoopStore | src/interpreter/index.ts:304-306 | the environments a counting loop over an empty block adds: one new child of the loop's environment per number, in order, binding the loop variable to that number, with the old environments untouched |
| EvaluationFacts.RangeLoopFirstTurn | src/interpreter/index.ts:305-307 | every turn, whatever its block, declares the loop variable bound to the number in a new child of the loop's environment, leaving the older environments as they were, and runs the block in that child |
| EvaluationFacts.RangeLoopOverEmptyBlock | src/interpreter/index.ts:304-308 | a counting loop from `start` to `end` inclusive over an empty block adds exactly the environments of LoopStore and gives `undefined` |
| EvaluationFacts.FunctionDeclarationBinds | src/interpreter/index.ts:383-406 | a function declaration binds its name, not static, to a closure over the current environment; a name already declared fails and changes nothing |
| EvaluationFacts.CallCatchesPrint | src/interpreter/index.ts:414-422 | a call to `print` gives `undefined` when its argument converts, and otherwise records and throws "CallExpression error: " with the conversion's error text at the callee's token; a closure's exceptions pass through uncaught, as its promise's rejection does |
| EvaluationFacts.PrintFailures | src/libs/global/index.ts:29-37 | `print([])` fails reading the first entry of an empty Map, `print(1..3)` fails with "obj is not Map", and a Map not tagged as an array never fails |
| EvaluationFacts.CallRunsInChildOfHome | src/interpreter/index.ts:390 | calling a closure runs it in a new environment whose parent is the environment it was defined in |
| EvaluationFacts.CallSeesFirstArgumentOnly | src/interpreter/index.ts:414 | `apply` passes only the first argument, and a callee that is not a function is the call's value |
| EvaluationFacts.DeclareFresh | src/environment/index.ts:89-96 | declaring a fresh name adds its binding and nothing else |
| EvaluationFacts.LambdaSurplusFails | src/interpreter/index.ts:582-594 | a lambda given more items than parameters fails once binding reaches the first item without a parameter |
| EvaluationFacts.PositionalVars | src/interpreter/index.ts:395-399 | binding by position adds exactly one binding per item that has a parameter, to that item, and keeps the old bindings |
| EvaluationFacts.BindFreshItem | src/interpreter/index.ts:396-398 | binding one item to a fresh parameter adds that binding and goes on with the next item |
| EvaluationFacts.BindItemsByPosition | src/interpreter/index.ts:395-399 | binding a declared function's items adds exactly the bindings of PositionalVars |
| EvaluationFacts.ExecVariableDeclaration | src/interpreter/index.ts:139-140 | a VariableDeclaration statement is interpreted by `interpretVariableDeclaration` |
| EvaluationFacts.DeclareLiteralRules | src/environment/index.ts:89-96 | declaring a Literal name fails with "Variable ... already declared" when the environment holds it; otherwise it binds the value there, static exactly when asked or already static, and changes no other environment |
| EvaluationFacts.VariableDeclarationRules | src/interpreter/index.ts:425-428 | a declaration evaluates its value and binds it in the current environment, static exactly when it is `cst`, touching no other environment; an evaluation failure passes through and a name already declared fails |
| EvaluationFacts.RedeclarationFails | src/environment/index.ts:92-94 | declaring a name the environment already holds fails with "Variable ... already declared" |
| EvaluationFacts.ExposeIgnoresOtherBodies | src/interpreter/index.ts:208-221 | `expose` of anything but a declaration runs nothing and changes nothing |
| EvaluationFacts.ExposeFunctionDeclaration | src/interpreter/index.ts:218-221 | `expose` of a fresh function declaration binds it and adds its name to the environment's exposed names |
| EvaluationFacts.RunWithoutStages | src/interpreter/index.ts:197-199 | a run statement without stages runs the callee; the model gives `undefined` after it |
| EvaluationFacts.StagesUnfold | src/interpreter/index.ts:191-195 | the stage loop is its first stage followed, after a normal stage, by the loop from the next stage |
| EvaluationFacts.StagesKeepResultLive | src/interpreter/index.ts:191-195 | the callee's result stays live through the stages |
| EvaluationFacts.LastStageAlone | src/interpreter/index.ts:191-196 | the run's value is the last stage's, whatever the stages before it gave |
| EvaluationFacts.StagesRunInOrder | src/interpreter/index.ts:191-196 | running `stages + [s]` is running `stages` and then `s` alone, handed the same callee result |
| EvaluationFacts.StagesRunInOrderStep | src/interpreter/index.ts:191-195 | the first stage runs the same way in `stages` and in `stages + [s]` |
| EvaluationFacts.StageSeesCalleeResult | src/interpreter/index.ts:192-194 | each stage runs in a new child of the run's environment in which its first argument is bound to the callee's result |
| EvaluationFacts.ArrayEntriesFollowItems | src/interpreter/index.ts:497-507 | an array literal has one entry per item, in order, each keyed by the item's key token retyped as an index |
| EvaluationFacts.ProgramThrowsFirstError | src/interpreter/index.ts:131-133 | when a program throws, it throws the first error ever recorded, and an exception with no error recorded never escapes |
| Interpreters.Interpreter.constructor | src/interpreter/index.ts:99-135 | the interpreter starts from the given sound state |
| Interpreters.Interpreter.InterpretBlock | src/interpreter/index.ts:354-382 | the statement loop leaves the state and gives the completion that Block specifies, keeping the store invariant |
| Interpreters.Interpreter.RangeFor | src/interpreter/index.ts:304-308 | the counting loop leaves the state and gives the completion that RangeLoop specifies |
| Interpreters.Interpreter.RangeForTurn | src/interpreter/index.ts:305-307 | one counting turn does what RangeTurn specifies, and the rest of the loop then continues RangeLoop from where the turn left off |
| Interpreters.Interpreter.ArrayFor | src/interpreter/index.ts:313-319 | the `for...in` loop leaves the state and gives the completion that MapLoop specifies |
| Interpreters.Interpreter.ArrayForTurn | src/interpreter/index.ts:314-318 | one `for...in` turn moves the loop one element on, or ends it as MapLoop specifies |
| Interpreters.Interpreter.SwitchCases | src/interpreter/index.ts:283-292 | the case loop leaves the state and gives the completion that Cases specifies, keeping the store invariant |
| Interpreters.Interpreter.RunStages | src/interpreter/index.ts:191-195 | the stage loop leaves the state and gives the completion that Stages specifies |
| Interpreters.Interpreter.RunStage | src/interpreter/index.ts:192-194 | one stage moves the loop one stage on, or ends it as Stages specifies |
| Interpreters.Interpreter.ArrayLiteral | src/interpreter/index.ts:497-507 | the array-literal loop leaves the state and gives the completion that ArrayItems specifies, keeping the store invariant |
| Interpreters.Interpreter.ObjectLiteral | src/interpreter/index.ts:508-523 | the object-literal loop leaves the state and gives the completion that ObjectProps specifies, keeping the store invariant |
| Interpreters.Interpreter.InterpretProgram | src/interpreter/index.ts:99-135 | `interpret` leaves the state and gives the completion that Interpret specifies, keeping the store invariant |
| Grammar.At | src/parser/index.ts:56-58 | `at(k)` gives a token exactly when `k` places past the read position are still in the queue, and then it is that token |
| Grammar.Match | src/parser/index.ts:64-97 | `match` succeeds exactly when the front token has the tag (and the text, when given), consuming just that token; an empty queue throws "Unexpected token: <tag>" and a mismatch throws the "Infinite loop to Match" error |
| Grammar.Eat | src/parser/index.ts:60-62 | `eat` gives the front token, or nothing on an empty queue, and moves past it |
| Grammar.Identifier | src/parser/index.ts:353-356 | succeeds exactly on an identifier token, which it wraps in a Literal and consumes |
| Grammar.StringLiteral | src/parser/index.ts:358-366 | succeeds exactly on a string token, which it wraps in a Literal and consumes; any other kind throws "Unexpected token: <kind>" |
| Grammar.DefaultAs | src/parser/index.ts:235-241 | `as name` consumes tokens and gives one default specifier |
| Grammar.SpecifierItem | src/parser/index.ts:215-227 | one item of a `pick` list consumes tokens and gives a UseSpecifier |
| Grammar.Specifiers | src/parser/index.ts:214-228 | the `pick` item loop consumes tokens and keeps the items already read |
| Grammar.AsList | src/parser/index.ts:212-233 | a parenthesised `pick` list consumes tokens |
| Grammar.UseDecl | src/parser/index.ts:243-262 | a `use` declaration consumes tokens and stays within the queue |
| Grammar.UsePick | src/parser/index.ts:250-255 | the optional `pick` clause stays within the queue |
| Grammar.Statements | src/parser/index.ts:104-107 | the statement loop of `parse` ends only with the queue empty, keeping the statements already read |
| Grammar.Statement | src/parser/index.ts:112-145 | every statement consumes at least one token and stays within the queue, so the loop of `parse` moves on |
| Grammar.TaskStmt | src/parser/index.ts:193-201 | a task statement consumes tokens |
| Grammar.ExposeStmt | src/parser/index.ts:203-210 | an expose statement consumes tokens |
| Grammar.ReturnStmt | src/parser/index.ts:264-272 | a return statement consumes tokens |
| Grammar.VariableDecl | src/parser/index.ts:368-391 | a variable declaration consumes tokens |
| Grammar.IfStmt | src/parser/index.ts:393-415 | an `if` statement consumes tokens |
| Grammar.IfTail | src/parser/index.ts:402-409 | the `else` or `end` after the consequent consumes tokens |
| Grammar.FunctionDecl | src/parser/index.ts:339-351 | a function declaration consumes tokens |
| Grammar.ForStmt | src/parser/index.ts:417-438 | a `for` statement consumes tokens |
| Grammar.ForItem | src/parser/index.ts:421-425 | the optional `, item` and the rest of the loop consume tokens |
| Grammar.ForIn | src/parser/index.ts:426-437 | `in`, the range and the body consume tokens |
| Grammar.SwitchStmt | src/parser/index.ts:274-290 | a switch statement consumes tokens |
| Grammar.SwitchCases | src/parser/index.ts:278-281 | the case loop stops only at an `end` token, which is still in the queue |
| Grammar.SwitchCase | src/parser/index.ts:292-337 | a case arm consumes tokens |
| Grammar.CaseArm | src/parser/index.ts:300-325 | a case arm from its colon on consumes tokens |
| Grammar.CaseEnd | src/parser/index.ts:318-325 | the `break` check after a case body stays within the queue |
| Grammar.CaseBody | src/parser/index.ts:302-314 | the case body loop keeps the statements read and stops at the queue's end or at `break`, `case`, `default` or `end` |
| Grammar.RunStmt | src/parser/index.ts:175-191 | a run statement consumes tokens |
| Grammar.ToStages | src/parser/index.ts:179-181 | the `to` loop keeps the stages read and stays within the queue |
| Grammar.ToExpr | src/parser/index.ts:164-173 | a `to` stage consumes tokens |
| Grammar.WaitStmt | src/parser/index.ts:155-162 | a wait statement consumes tokens |
| Grammar.Block | src/parser/index.ts:440-456 | a block gives a BlockStatement, and consumes tokens whenever it must read an `end` |
| Grammar.BlockBody | src/parser/index.ts:442-449 | the block loop keeps the statements read and stops at the queue's end or at `end` or `else` |
| Grammar.Args | src/parser/index.ts:700-719 | an argument list before a colon is empty and consumes nothing; otherwise it stays within the queue |
| Grammar.ArgList | src/parser/index.ts:704-718 | the parenthesised argument list consumes tokens |
| Grammar.Item | src/parser/index.ts:710-715 | one argument or array item, with its optional comma, consumes tokens |
| Grammar.Expression | src/parser/index.ts:528-530 | an expression consumes tokens |
| Grammar.Ternary | src/parser/index.ts:532-547 | a ternary level consumes tokens |
| Grammar.Conditional | src/parser/index.ts:534-545 | the `? a : b` branch consumes tokens and gives a TernaryExpression |
| Grammar.Comparison | src/parser/index.ts:636-666 | a comparison level consumes tokens |
| Grammar.ComparisonTail | src/parser/index.ts:645-663 | the operator branch of a comparison consumes tokens |
| Grammar.ObjectLiteral | src/parser/index.ts:549-598 | an object-literal level consumes tokens |
| Grammar.Properties | src/parser/index.ts:556-593 | the property loop with its closing brace consumes tokens and gives an ObjectExpression |
| Grammar.PropertyItem | src/parser/index.ts:557-591 | one property consumes tokens and gives a Property |
| Grammar.PropertyValue | src/parser/index.ts:584-590 | `key: value` consumes tokens and gives a Property |
| Grammar.ArrayLiteral | src/parser/index.ts:600-634 | an array-literal level consumes tokens |
| Grammar.ArrayItems | src/parser/index.ts:614-629 | the item loop with its closing bracket consumes tokens and gives an ArrayExpression |
| Grammar.Equal | src/parser/index.ts:668-698 | an equality level consumes tokens |
| Grammar.EqualTail | src/parser/index.ts:676-696 | the `=`/`!` branch consumes tokens |
| Grammar.Call | src/parser/index.ts:721-733 | a call level consumes tokens |
| Grammar.Binary | src/parser/index.ts:735-753 | an arithmetic level consumes tokens |
| Grammar.Member | src/parser/index.ts:755-802 | a member level consumes tokens |
| Grammar.RangeTail | src/parser/index.ts:757-769 | a range consumes both dots and its end, and gives a RangeExpression |
| Grammar.MemberTail | src/parser/index.ts:770-800 | the accessor loop stays within the queue |
| Grammar.Accessor | src/parser/index.ts:771-798 | one accessor consumes tokens and gives a MemberExpression |
| Grammar.Grouped | src/parser/index.ts:818-822 | a parenthesised expression consumes tokens |
| Grammar.Lambda | src/parser/index.ts:827-837 | an anonymous function gives a LambdaFunctionDecl and stays within the queue |
| Grammar.Primary | src/parser/index.ts:804-857 | a primary expression consumes tokens |
| Grammar.Parse | src/parser/index.ts:99-110 | `parse` gives a Program, an empty one for no tokens |
| Grammar.RunEnd | src/parser/index.ts:464 | the run of characters other than `}` from `j` ends at the first `}` or at the end of the text |
| Grammar.FindMatch | src/parser/index.ts:464-468 | the match `exec` finds is the leftmost one at or after the position, and there is none exactly when no position matches |
| Grammar.TemplateParts | src/parser/index.ts:468-523 | the template loop keeps the elements already built |
| Grammar.TemplateMatch | src/parser/index.ts:469-504 | one match adds a text element when text precedes it, then an identifier element holding the text between the braces at the match's column, and moves past the closing braces |
| Grammar.TemplateString | src/parser/index.ts:458-525 | `parseTemplateString` gives a TemplateLiteralExpression |
| GrammarFacts.StatementsInOrder | src/parser/index.ts:104-107 | the statement loop keeps the statements already collected in front, and the next one it adds is the statement parsed at its position |
| GrammarFacts.ParseKeepsOrder | src/parser/index.ts:99-110 | a successful `parse` is the Program of the statements in source order, the first being the statement at the front |
| GrammarFacts.ShortTextHasNoTemplate | src/parser/index.ts:812 | a text shorter than five characters never holds a `{{name}}` pattern |
| GrammarFacts.PlainOperand | src/parser/index.ts:804-816 | a literal token whose text holds no `{{name}}` pattern, followed by an operator other than `[` or by nothing, parses as that Literal alone |
| GrammarFacts.ArithmeticNestsRight | src/parser/index.ts:735-753 | for any two of `+ - * /` between plain literal operands, `a op1 b op2 c` parses as `a op1 (b op2 c)`: no precedence, right nesting |
| GrammarFacts.ComparisonOperator | src/parser/index.ts:645-663 | `<`/`>` followed by an `=` token fuse into `<=`/`>=`; otherwise the operator is the token itself; the right side is a whole comparison |
| GrammarFacts.EqualOrAssignment | src/parser/index.ts:676-696 | `=`/`!` followed by `=` is an equality test reading `==`/`!=`, and a lone `=` or `!` is an assignment with that operator |
| GrammarFacts.RangeAfterTwoDots | src/parser/index.ts:757-769 | a primary followed by two dots is a range to the member expression after them, the first dot relabelled ".." as the step |
| GrammarFacts.ArrayItemsKeyed | src/parser/index.ts:614-627 | the item loop keeps the items collected and keys each new item by its position, counting on |
| GrammarFacts.ArrayKeysArePositions | src/parser/index.ts:600-634 | the k-th item of an array literal is a Property keyed by the number k |
| GrammarFacts.ArrayLiteralOpens | src/parser/index.ts:604-613 | after its `[` an array literal is either `[]` or its item loop |
| GrammarFacts.EmptyArray | src/parser/index.ts:607-612 | `[]` parses to an empty ArrayExpression and consumes both brackets |
| GrammarFacts.CaseEndRules | src/parser/index.ts:318-319 | a case body not ending in a return must be followed by `break`, which is consumed; one ending in a return consumes nothing more; an empty body is never accepted |
| GrammarFacts.SwitchCaseShape | src/parser/index.ts:292-337 | a `default` arm has no test and becomes a CaseBlockStatement, a `case` arm keeps its test and becomes a DefaultCaseBlockStatement, and any other token throws "Unexpected case token: <kind>" |
| GrammarFacts.Restore | src/parser/index.ts:458-525 | joining no template elements gives the empty text |
| GrammarFacts.RestoreAppend | src/parser/index.ts:458-525 | joining template elements distributes over concatenation |
| GrammarFacts.RestoreSingle | src/parser/index.ts:458-525 | one element joins to its own text |
| GrammarFacts.CutAroundMatch | src/parser/index.ts:468-504 | a text cut around a `{{...}}` match is the text before it, the match with its braces, and the text after it |
| GrammarFacts.RestorePair | src/parser/index.ts:458-525 | two elements join to their two texts |
| GrammarFacts.MatchedTextRestores | src/parser/index.ts:469-504 | the text element before a match and the identifier inside it join back to the original text up to the closing braces |
| GrammarFacts.MatchRestores | src/parser/index.ts:469-504 | the elements one match adds join back to the text from the previous match's end to where the search resumes |
| GrammarFacts.TemplatePartsRestore | src/parser/index.ts:468-523 | the elements the template loop produces from a position on join back to the text from that position on |
| GrammarFacts.TemplateRestores | src/parser/index.ts:458-525 | splitting a template literal loses nothing: its elements, braces restored around the names, join back to the literal's text |
| GrammarFacts.TemplatePartsKeepLine | src/parser/index.ts:473-517 | every template element keeps the literal token's line |
| GrammarFacts.TemplateOfAxB | src/parser/index.ts:458-525 | "a{{x}}b" splits into the text "a" and the identifier "x" at the match's column, then the text "b" at its own column |
| Parsing.Parser.FrontAt | src/parser/index.ts:56-58 | the front of the queue is the token at the read position, and the one after it follows it |
| Parsing.Parser.constructor | src/parser/index.ts:45-47 | a new parser starts with an empty queue and nothing read |
| Parsing.Parser.PushStack | src/parser/index.ts:52-54 | `pushStack` appends the tokens to the queue and consumes nothing |
| Parsing.Parser.At | src/parser/index.ts:56-58 | `at(k)` gives what Grammar.At gives for the read position |
| Parsing.Parser.Eat | src/parser/index.ts:60-62 | `eat` gives the front token and moves on exactly as Grammar.Eat says |
| Parsing.Parser.Match | src/parser/index.ts:64-97 | the retry loop of `match` succeeds, consumes and fails exactly as Grammar.Match says, consuming nothing on failure |
| Parsing.Parser.Parse | src/parser/index.ts:99-110 | `parse` takes the given queue, or keeps its own, and gives exactly Grammar.Parse of it, leaving the queue empty on success |
| Parsing.Parser.ParseIdentifier | src/parser/index.ts:353-356 | gives the node (or the error) Grammar.Identifier describes and leaves the queue where Grammar.Identifier stops |
| Parsing.Parser.ParseString | src/parser/index.ts:358-366 | gives the node (or the error) Grammar.StringLiteral describes and leaves the queue where Grammar.StringLiteral stops |
| Parsing.Parser.ParseDefaultAs | src/parser/index.ts:235-241 | gives the node (or the error) Grammar.DefaultAs describes and leaves the queue where Grammar.DefaultAs stops |
| Parsing.Parser.ParseAs | src/parser/index.ts:212-233 | gives the node (or the error) Grammar.AsList describes and leaves the queue where Grammar.AsList stops |
| Parsing.Parser.ParseSpecifier | src/parser/index.ts:215-227 | gives the node (or the error) Grammar.SpecifierItem describes and leaves the queue where Grammar.SpecifierItem stops |
| Parsing.Parser.ParseUse | src/parser/index.ts:243-262 | gives the node (or the error) Grammar.UseDecl describes and leaves the queue where Grammar.UseDecl stops |
| Parsing.Parser.ParseUsePick | src/parser/index.ts:250-255 | gives the node (or the error) Grammar.UsePick describes and leaves the queue where Grammar.UsePick stops |
| Parsing.Parser.ParseStatement | src/parser/index.ts:112-145 | gives the node (or the error) Grammar.Statement describes and leaves the queue where Grammar.Statement stops |
| Parsing.Parser.ParseTask | src/parser/index.ts:193-201 | gives the node (or the error) Grammar.TaskStmt describes and leaves the queue where Grammar.TaskStmt stops |
| Parsing.Parser.ParseExpose | src/parser/index.ts:203-210 | gives the node (or the error) Grammar.ExposeStmt describes and leaves the queue where Grammar.ExposeStmt stops |
| Parsing.Parser.ParseReturn | src/parser/index.ts:264-272 | gives the node (or the error) Grammar.ReturnStmt describes and leaves the queue where Grammar.ReturnStmt stops |
| Parsing.Parser.ParseVariable | src/parser/index.ts:368-391 | gives the node (or the error) Grammar.VariableDecl describes and leaves the queue where Grammar.VariableDecl stops |
| Parsing.Parser.ParseIf | src/parser/index.ts:393-415 | gives the node (or the error) Grammar.IfStmt describes and leaves the queue where Grammar.IfStmt stops |
| Parsing.Parser.ParseIfTail | src/parser/index.ts:402-409 | gives the node (or the error) Grammar.IfTail describes and leaves the queue where Grammar.IfTail stops |
| Parsing.Parser.ParseFunction | src/parser/index.ts:339-351 | gives the node (or the error) Grammar.FunctionDecl describes and leaves the queue where Grammar.FunctionDecl stops |
| Parsing.Parser.ParseFor | src/parser/index.ts:417-438 | gives the node (or the error) Grammar.ForStmt describes and leaves the queue where Grammar.ForStmt stops |
| Parsing.Parser.ParseForItem | src/parser/index.ts:421-425 | gives the node (or the error) Grammar.ForItem describes and leaves the queue where Grammar.ForItem stops |
| Parsing.Parser.ParseForIn | src/parser/index.ts:426-437 | gives the node (or the error) Grammar.ForIn describes and leaves the queue where Grammar.ForIn stops |
| Parsing.Parser.ParseSwitch | src/parser/index.ts:274-290 | gives the node (or the error) Grammar.SwitchStmt describes and leaves the queue where Grammar.SwitchStmt stops |
| Parsing.Parser.ParseSwitchCase | src/parser/index.ts:292-337 | gives the node (or the error) Grammar.SwitchCase describes and leaves the queue where Grammar.SwitchCase stops |
| Parsing.Parser.ParseCaseArm | src/parser/index.ts:300-325 | gives the node (or the error) Grammar.CaseArm describes and leaves the queue where Grammar.CaseArm stops |
| Parsing.Parser.ParseCaseEnd | src/parser/index.ts:318-325 | gives the node (or the error) Grammar.CaseEnd describes and leaves the queue where Grammar.CaseEnd stops |
| Parsing.Parser.ParseRun | src/parser/index.ts:175-191 | gives the node (or the error) Grammar.RunStmt describes and leaves the queue where Grammar.RunStmt stops |
| Parsing.Parser.ParseTo | src/parser/index.ts:164-173 | gives the node (or the error) Grammar.ToExpr describes and leaves the queue where Grammar.ToExpr stops |
| Parsing.Parser.ParseWait | src/parser/index.ts:155-162 | gives the node (or the error) Grammar.WaitStmt describes and leaves the queue where Grammar.WaitStmt stops |
| Parsing.Parser.ParseBlock | src/parser/index.ts:440-456 | gives the node (or the error) Grammar.Block describes and leaves the queue where Grammar.Block stops |
| Parsing.Parser.ParseArgs | src/parser/index.ts:700-719 | gives the node (or the error) Grammar.Args describes and leaves the queue where Grammar.Args stops |
| Parsing.Parser.ParseExpression | src/parser/index.ts:528-530 | gives the node (or the error) Grammar.Expression describes and leaves the queue where Grammar.Expression stops |
| Parsing.Parser.ParseTernary | src/parser/index.ts:532-547 | gives the node (or the error) Grammar.Ternary describes and leaves the queue where Grammar.Ternary stops |
| Parsing.Parser.ParseConditional | src/parser/index.ts:534-545 | gives the node (or the error) Grammar.Conditional describes and leaves the queue where Grammar.Conditional stops |
| Parsing.Parser.ParseComparison | src/parser/index.ts:636-666 | gives the node (or the error) Grammar.Comparison describes and leaves the queue where Grammar.Comparison stops |
| Parsing.Parser.ParseComparisonTail | src/parser/index.ts:645-663 | gives the node (or the error) Grammar.ComparisonTail describes and leaves the queue where Grammar.ComparisonTail stops |
| Parsing.Parser.ParseObjectLiteral | src/parser/index.ts:549-598 | gives the node (or the error) Grammar.ObjectLiteral describes and leaves the queue where Grammar.ObjectLiteral stops |
| Parsing.Parser.ParseProperty | src/parser/index.ts:557-591 | gives the node (or the error) Grammar.PropertyItem describes and leaves the queue where Grammar.PropertyItem stops |
| Parsing.Parser.ParsePropertyValue | src/parser/index.ts:584-590 | gives the node (or the error) Grammar.PropertyValue describes and leaves the queue where Grammar.PropertyValue stops |
| Parsing.Parser.ParseItem | src/parser/index.ts:710-715 | gives the node (or the error) Grammar.Item describes and leaves the queue where Grammar.Item stops |
| Parsing.Parser.ParseArrayLiteral | src/parser/index.ts:600-634 | gives the node (or the error) Grammar.ArrayLiteral describes and leaves the queue where Grammar.ArrayLiteral stops |
| Parsing.Parser.ParseEqual | src/parser/index.ts:668-698 | gives the node (or the error) Grammar.Equal describes and leaves the queue where Grammar.Equal stops |
| Parsing.Parser.ParseEqualTail | src/parser/index.ts:676-696 | gives the node (or the error) Grammar.EqualTail describes and leaves the queue where Grammar.EqualTail stops |
| Parsing.Parser.ParseCall | src/parser/index.ts:721-733 | gives the node (or the error) Grammar.Call describes and leaves the queue where Grammar.Call stops |
| Parsing.Parser.ParseBinary | src/parser/index.ts:735-753 | gives the node (or the error) Grammar.Binary describes and leaves the queue where Grammar.Binary stops |
| Parsing.Parser.ParseMember | src/parser/index.ts:755-802 | gives the node (or the error) Grammar.Member describes and leaves the queue where Grammar.Member stops |
| Parsing.Parser.ParseRange | src/parser/index.ts:757-769 | gives the node (or the error) Grammar.RangeTail describes and leaves the queue where Grammar.RangeTail stops |
| Parsing.Parser.ParseMemberTail | src/parser/index.ts:770-800 | gives the node (or the error) Grammar.MemberTail describes and leaves the queue where Grammar.MemberTail stops |
| Parsing.Parser.ParseAccessor | src/parser/index.ts:771-798 | gives the node (or the error) Grammar.Accessor describes and leaves the queue where Grammar.Accessor stops |
| Parsing.Parser.ParsePrimary | src/parser/index.ts:804-857 | gives the node (or the error) Grammar.Primary describes and leaves the queue where Grammar.Primary stops |
| Parsing.Parser.ParseGrouped | src/parser/index.ts:818-822 | gives the node (or the error) Grammar.Grouped describes and leaves the queue where Grammar.Grouped stops |
| Parsing.Parser.ParseLambda | src/parser/index.ts:827-837 | gives the node (or the error) Grammar.Lambda describes and leaves the queue where Grammar.Lambda stops |
| Parsing.Parser.ParseTemplateString | src/parser/index.ts:458-525 | the `exec` loop over the token's text builds exactly Grammar.TemplateString |
| Templates.TextAt | src/parser/template.ts:29 | a read inside the text appends that one character |
| Templates.Flushed | src/parser/template.ts:41-53 | pending text is pushed as a segment only when it is not empty; the earlier quotes are kept in front |
| Templates.Escaped | src/parser/template.ts:22-34 | the backslash branch always moves the index forward and never touches the quotes |
| Templates.Embedded | src/parser/template.ts:35-68 | a successful `{{...}}` part moves past the two closing braces and leaves no pending text and no escape |
| Templates.Step | src/parser/template.ts:20-72 | every pass of the loop that does not throw moves the index forward |
| Templates.ScanText | src/parser/template.ts:20-73 | a scan that does not throw ends at or past the end of the text |
| Templates.TemplateStringParser.constructor | src/parser/template.ts:11-14 | the parser keeps the token and starts reading at index 0 |
| Templates.TemplateStringParser.Parse | src/parser/template.ts:15-87 | the loop's result is exactly Templates.Template from the starting index, the token is unchanged and the index ends where the scan ends |
| Templates.TemplateStringParser.ReadEscape | src/parser/template.ts:22-34 | succeeds exactly when Templates.Escaped does, with the same text, escape flag and index, or the same error |
| Templates.TemplateStringParser.ReadPart | src/parser/template.ts:35-68 | succeeds exactly when Templates.Embedded does, with the same quotes and index, or the same error |
| Templates.TemplateStringParser.ReadName | src/parser/template.ts:54-59 | the name is the text from the start up to the first `}` (or the end) and the index stops there |
| Templates.LexAndParse | src/parser/template.ts:67-68 | the statements of a part are those of lexing then parsing it, and lexing or parsing errors come back wrapped |
| Templates.PlainTextCollects | src/parser/template.ts:69-72 | text with no backslash and no `{{` is collected character by character into the pending text, in order |
| Templates.PlainTemplate | src/parser/template.ts:74-86 | a plain text becomes one literal equal to the token itself, or no quotes at all when it is empty |
| Templates.SingleBraceIsText | src/parser/template.ts:36-39 | a `{` not followed by `{` is appended as ordinary text |
| Templates.PartIsParsed | src/parser/template.ts:41-68 | at `{{` the text up to the first `}` is lexed and parsed, its statements follow the flushed text, and scanning resumes after `}}` |
| Templates.FirstCloseIsRunEnd | src/parser/template.ts:56-59 | the name loop stops at the first `}` after its start |
| Templates.SingleCloseRaises | src/parser/template.ts:60-64 | a first `}` not followed by another `}` raises "The template string is not closed." |
| Templates.UnclosedRaises | src/parser/template.ts:60-64 | with no `}` after `{{`, the corrected scan raises the not-closed error |
| Templates.SegmentKinds | src/parser/template.ts:42-50 | segments pushed before a part take the string kind, the trailing one keeps the token's kind, and both keep its line and column |
| Templates.UnclosedLoopsForever | src/parser/template.ts:56-59 | as written, with no `}` ahead the name loop never stops, whatever number of passes is followed |
| Templates.ClosedLoopStops | src/parser/template.ts:56-59 | as written, with a `}` ahead the loop stops there with the same name the corrected scan reads |
| Templates.UnclosedExample | src/parser/template.ts:54-64 | for "{{x" the loop as written never stops, while the corrected scan raises the not-closed error |
| Units.FindKey | src/unit/index.ts:112-113 | the position of the first property with that key in key order, or past the end exactly when no property has it |
| Units.IndexOf | src/unit/index.ts:115 | `findIndex` by identity: the first position holding the node, or past the end exactly when none does |
| Units.BodyStatements | src/unit/index.ts:17-37 | the statements re-parented are the items of `body` (an array, or the `body` of the node held there) and all exist; a truthy body that is not iterable throws |
| Units.ReparentOneMore | src/unit/index.ts:21-30 | re-parenting the statements one at a time gives the same arena as re-parenting them all at once |
| Units.CreatedLinks | src/unit/index.ts:13-46 | construction fails exactly when the body is not iterable; otherwise the arena stays linked, the new node has its type and no parent, each body statement now has the new node as parent, and every other node is unchanged |
| Units.NeverPlacedHasNoParent | src/unit/index.ts:9-11 | a node never listed in a body keeps the class getter's null parent, and so does the node just built |
| Units.Ancestors | src/unit/index.ts:133-140 | the parent chain lists only existing nodes |
| Units.NearestBlockIsFirstBlockAncestor | src/unit/index.ts:132-142 | `findBlock` yields the first ancestor of type BlockStatement, and null exactly when no ancestor has that type |
| Units.PlaceFrom | src/unit/index.ts:112-124 | the property where the key walk stops is one of those not yet passed |
| Units.PlaceIsFirstHolder | src/unit/index.ts:112-124 | the walk stops at the first property, in key order, that holds the node (at its first array position), and finds nothing exactly when no property holds it |
| Units.PutWrites | src/unit/index.ts:114-122 | writing the new node changes only that one property, which keeps its key and now holds the new node |
| Units.ReplaceWithoutSlot | src/unit/index.ts:108-126 | with no parent, or a parent none of whose properties holds the node, `replaceWith` yields false and changes nothing |
| Units.ReplaceWritesFirstHolder | src/unit/index.ts:108-126 | when `replaceWith` yields true the node had a parent, a new node was built from the plain object, and the parent's first property holding the old node now holds the new one, every other property unchanged |
| Units.FunctionBodyStatement | src/unit/index.ts:13-142 | a statement of a function's block body has the function, not the block, as its parent, so `replaceWith` yields false and `findBlock` finds no block |
| Units.TraverseChildren | src/unit/index.ts:60-86 | every node the walk hands to the callback exists |
| Units.VisitsExist | src/unit/index.ts:60-86 | every node visited below a node exists |
| Units.SlotVisitsExist | src/unit/index.ts:62-83 | every node visited through a list of properties exists |
| Units.ValueVisitsExist | src/unit/index.ts:63-82 | every node visited through one property exists |
| Units.ItemVisitsExist | src/unit/index.ts:64-74 | every node visited through an array property exists |
| Units.HeldNodesVisited | src/unit/index.ts:62-83 | a node held in any property is handed to the callback, and so is everything below it |
| Units.HeldItemVisited | src/unit/index.ts:64-74 | a node held as an array item is handed to the callback, and so is everything below it |
| Units.OfKindExactly | src/unit/index.ts:95-99 | the selection holds exactly the visited nodes of the requested type and is no longer than the walk |
| Units.OfKindAppend | src/unit/index.ts:95-99 | one more visited node adds itself to the selection exactly when it has the requested type |
| Units.OneStatementProgramNeverFinishes | src/unit/index.ts:17-86 | as written, the walk over a program with one statement never finishes whatever the fuel, because the statement's enumerable `parent` leads back to the program |
| Units.OneStatementProgramWalk | src/unit/index.ts:60-86 | the walk that skips `parent` visits that program's one statement and stops |
| Units.UnitHeap.constructor | src/unit/index.ts:145-147 | an empty arena is linked |
| Units.UnitHeap.Create | src/unit/index.ts:13-46 | `createUnitNode` appends the node and re-parents the body's statements, giving exactly Units.Created and the new id, whose `getType` is the given type, or throws and changes nothing; the arena stays linked |
| Units.UnitHeap.FindBlock | src/unit/index.ts:132-142 | the loop up the parent chain yields exactly the nearest BlockStatement ancestor, or null |
| Units.UnitHeap.ReplaceWith | src/unit/index.ts:108-126 | the result and the new arena are exactly Units.Replaced, and the arena stays linked |
| Units.UnitHeap.ReplaceAt | src/unit/index.ts:117-122 | builds the new node, writes its id where the key walk stopped and yields true, or throws and changes nothing |
| Units.UnitHeap.FindNodesByType | src/unit/index.ts:93-101 | the nodes the walk visits whose type matches, in walk order, and no others |
| Debug.SplitOnSpace | src/debug/index.ts:50 | splitting on white space always yields at least one piece |
| Debug.CommandWords | src/debug/index.ts:48-52 | a command line always has a first word, the command |
| Debug.DigitPrefix | src/debug/index.ts:61 | the digits `parseInt` reads: all digits, a prefix of the text, and followed by no further digit |
| Debug.IndexOf | src/debug/index.ts:121 | `indexOf`: -1 exactly when the line is absent, otherwise the position of its first occurrence |
| Debug.SetFileResets | src/debug/index.ts:26-30 | `setFile` makes the file current (set exactly when the path is not empty) with an empty list and keeps every other file's list |
| Debug.ParseIntDigits | src/debug/index.ts:61-62 | a run of digits, with or without a leading minus, reads as its decimal value |
| Debug.DigitsArePrefix | src/debug/index.ts:61 | a text of digits is read whole |
| Debug.BreakAppends | src/debug/index.ts:57-69 | with a file set, `b n` appends `n` to that file's list (a repeat included), replies that it was set and changes nothing else |
| Debug.BreakNeedsFileAndNumber | src/debug/index.ts:60-75 | without a file, or without a valid number, `b` changes nothing and replies with the matching message |
| Debug.ClearRemovesFirst | src/debug/index.ts:115-127 | `c n` removes exactly the first occurrence of `n`, keeping the other lines in order, and removes nothing when `n` is absent |
| Debug.ClearStep | src/debug/index.ts:120-123 | the list after `c n` is the list with the element at `indexOf(n)` spliced out, or unchanged at -1 |
| Debug.ClearAll | src/debug/index.ts:128-132 | `c` without a number empties the file's list and replies that all were cleared |
| Debug.ClearDuplicateExample | src/debug/index.ts:121-123 | `c 7` on [3, 7, 5, 7] leaves [3, 5, 7] |
| Debug.NextRules | src/debug/index.ts:78-90 | `n` on a paused program unpauses it and calls the pause callback and then the resume callback; otherwise it changes nothing, calls nothing and replies that the program is not paused |
| Debug.OnlyBreakClearNextChangeState | src/debug/index.ts:53-169 | every command other than b, c and n (in all their spellings) leaves the state as it was and calls nothing |
| Debug.SplitOneWord | src/debug/index.ts:50 | a piece with no white space is not split |
| Debug.SplitTwoWords | src/debug/index.ts:50 | two pieces with one space between them split into exactly those two |
| Debug.HandleBreakLine | src/debug/index.ts:57-77 | a line whose words are `b` and `w` sets a breakpoint at the number read from `w` |
| Debug.HandleNextLine | src/debug/index.ts:78-90 | a line whose one word is `n` resumes |
| Debug.TwoWordLine | src/debug/index.ts:48-52 | a line of two words separated by one space reads as exactly those two words |
| Debug.OneWordLine | src/debug/index.ts:48-52 | a line of one word reads as exactly that word |
| Debug.TrimUnspaced | src/debug/index.ts:49 | trimming a text with no white space at either end leaves it unchanged |
| Debug.ShouldPauseRules | src/debug/index.ts:181-185 | with no file there is no pause; otherwise the program pauses exactly at the lines in the file's list |
| Debug.SetCurrentLineRules | src/debug/index.ts:188-195 | `setCurrentLine` records the line, pauses exactly when already paused or at a breakpoint, never unpauses, and keeps the breakpoints |
| Debug.OnRules | src/debug/index.ts:202-209 | `on` keeps the callback for "resume" and ignores every other event |
| Debug.BuiltinVariables | src/debug/index.ts:259-262 | the built-in names are exactly true, false and print |
| Debug.Debugger.constructor | src/debug/index.ts:9-24 | a new debugger has no file, no breakpoints, line 0, no environment, and is paused |
| Debug.Debugger.SetFilePath | src/debug/index.ts:26-30 | the fields change exactly as Debug.SetFile says |
| Debug.Debugger.HandleLine | src/debug/index.ts:47-170 | the fields, the reply and the callbacks called are exactly those of Debug.Handle on the line |
| Debug.Debugger.ShouldPauseAtLine | src/debug/index.ts:181-185 | true exactly when Debug.ShouldPause holds, and then the line is in the current file's list |
| Debug.Debugger.SetLine | src/debug/index.ts:188-195 | the fields change exactly as Debug.SetCurrentLine says |
| Debug.Debugger.OnEvent | src/debug/index.ts:202-209 | the fields change exactly as Debug.On says |
| Debug.Debugger.SetResumeCallback | src/debug/index.ts:212-214 | only the resume callback changes |
| Debug.Debugger.SetCurrentEnvironment | src/debug/index.ts:217-219 | only the current environment changes |

## Left out

- Asynchronous scheduling: `await`, `Promise.resolve().then`, `Promise.all` and the event-loop order are not modelled. Evaluation is synchronous, and every awaited or un-awaited evaluation is taken to produce the value its promise settles to. Where the source compares a promise object without awaiting it, the model compares the value.
- Module loading (`interpretUseDeclaration`, src/interpreter/index.ts:224-274): it reads files and re-enters the parser and the interpreter, so a `use` declaration evaluates to `Unmodelled`. A bare `UseSpecifier` node does the same.
- The debugger hooks inside `interpret` and `interpretBlockStatement` wait on promises. The model leaves them out, together with the debugger's readline loop, its console output, `getContent` and `showVariables`. A command's reply is an enumerated value instead of printed text.
- Console output of `print` and every other host library (io, path, date) are not part of this model. The global scope holds the one name `print`, which fails as `toRealValue` does on its argument and otherwise gives `undefined` (InterpreterState.Print); `isBuilInObject`, `isFunction` and `builInObjectToString`, which it calls after the conversion, are taken not to throw.
- Floating point: a number is an unbounded integer, positive or negative infinity, or NaN; negative zero is not told apart from zero. A double holds every integer within 2^53 exactly, so in that range the model's arithmetic is the host's. `Number` also reads text in radix (`0x10`), fraction (`1.5`, `5.`) or exponent (`1e3`) form; the model recognises such text without reading its value. `add`, `sub`, `mul`, `div` and the converting comparisons of `logicOperate` end in `Unmodelled` when an operand is such text, or when an operand or the result is an integer beyond 2^53, where the host rounds. A quotient that is not an integer ends there too. Within 2^53 `toString` never takes its exponent form (it does from 1e21), so the model's integer text is the host's.
- Host.StringToNumber: it reads text of radix, fraction or exponent form as NaN, and Host.NumberToString and Host.Add hold integers beyond 2^53 exactly. The operations of `TokenUnit` guard against both (TokenUnits.Operand, TokenUnits.SumExact, TokenUnits.Exactly, TokenUnits.Comparable), so their results are the host's wherever they do not end in `Unmodelled`.
- RealValues.ToRealValue: a number-kind token is read by Host.ToNumber without that guard. Its text comes from the lexer (digits only) or from an arithmetic result (held exactly), except that `add` on a number and a string keeps the string's text under the number kind. So an environment key, a range end, a member name or a `mapToObject` key that converts such a token reads fraction, radix or exponent text as NaN where the host reads its value, and an integer beyond 2^53 exactly where the host rounds it.
- InterpreterState.UnitFailure: the "Unknown literal type" error carries the message without the JSON text of the token that `vaildBaseType` appends (src/utils/TokenUnit.ts:17-19).
- The template parser's escapes go through `new Function`, which the model takes as a parameter (`Templates.Unescape`).
- The JSON text of an unknown expression node is not modelled (`Unmodelled`); nor is the JSON text of the token in the "Unknown literal type" message (see InterpreterState.UnitFailure above).
- Evaluation is bounded by a `fuel` count of nested statement and expression calls. A run that exceeds it ends in `OutOfFuel`, so the model proves nothing about programs that nest deeper than the fuel given.
- Object property order: host objects are maps, so the enumeration order of an object's keys is not kept. A `for...in` over an object that is not an array ends in `Unmodelled`, and so does a plain object used as a loop item or read back as a value.
- Object identity and aliasing: values are copied. Only environments, which live in the store, and syntax nodes, which live in the `Units` arena, are shared by reference.
- Member reads: an array read by a name other than an index or `length` ends in `Unmodelled`, and so does an object read by a name that every object inherits (`toString`, `constructor`, `hasOwnProperty` and the other `Object.prototype` names); an object read by any other name it does not hold gives `undefined`. Properties of primitives and of host objects, and a property node that is not a `Literal`, end in `Unmodelled` too.
- Operands of other shapes end in `Unmodelled`. These are arithmetic or a comparison whose left operand is not a token, a range whose ends convert to neither integers nor NaN (an infinity, say), and the few node shapes the parser never builds in that position (a block that is not a block statement, a switch case that is not a case block, and the like).
- The string-tag branch of `Parser.match` (src/parser/index.ts:65-71) is never called, so it is left out.
- `ErrorStack`'s stack trace and the `NODE_ENV` switch are left out.
- `TokenType` is a numeric enum, and the `BaseDataTag` values are not part of this model. The model assumes the two never coincide.
- Units.TraverseChildren: the walk skips the enumerable `parent` property that construction installs on each body statement (src/unit/index.ts:22-29). The source's `for...in` reaches it and climbs back to the parent, so on any node holding a statement the source never returns; the model returns the pre-order list of the nodes below. Token records carry a `type` property too; the walk does not descend into them, nor into the `__origin` copy of each node.
- Units.UnitHeap.FindNodesByType: it selects from the corrected walk of Units.TraverseChildren, so it returns where the source recurses without end on any node holding a statement (Units.OneStatementProgramNeverFinishes shows the source's behaviour).
- Templates.TemplateStringParser.ReadName: the loop stops at the end of the text, where the source's loop (src/parser/template.ts:56-59) keeps appending `undefined` without end when no `}` follows `{{` (Templates.UnclosedLoopsForever shows the source's behaviour).
- Templates.Embedded: it reads the name with the corrected loop, so a `{{` with no later `}` raises "The template string is not closed." instead of never ending; Templates.ScanText, Templates.Template and Templates.TemplateStringParser.Parse inherit this.
- Text is a sequence of Unicode code points, while the source indexes UTF-16 code units. For a character outside the Basic Multilingual Plane the source counts two positions where the model counts one: the lexer's columns after it (string tokens, the column advance of two around a string, comment columns), the `match.index`/`lastIndex` positions of the template pattern and the template segments' columns, and the positions of the template scanner, whose `split("")` also cuts such a character into two surrogate halves.
- Parsing.Parser.constructor: the source's `tokens` field starts undefined until `parse` sets it. The model starts with an empty queue.

## Findings

| source | as written | input that shows it | evidently intended | confidence | as-written member | corrected member |
|---|---|---|---|---|---|---|
| src/parser/template.ts:56-64 | the name loop stops only at a `}`; past the end of the text it reads `undefined`, which is never `}` | the template text `{{x` | stop at the end of the text and raise "The template string is not closed." | not executed | Templates.UnclosedLoopsForever | Templates.UnclosedRaises |
| src/unit/index.ts:60-86 | `for...in` also reaches the enumerable `parent` getter that construction installs on each statement, and the parent has a `type`, so the walk climbs back up | a `Program` with one statement | visit only the nodes nested below the node | not executed | Units.OneStatementProgramNeverFinishes | Units.OneStatementProgramWalk |
| src/utils/TokenUnit.ts:120-121 | the `<=` arm computes `left >= right` | `3 <= 2` gives true | `left <= right` | not executed | TokenUnits.LessEqualAsWritten | TokenUnits.RelateLessEqual |
| src/utils/toRealValue.ts:14-15 | an `if` converts its test with `toRealValue`, which reads a boolean token as `!!token.value`, so the text "false" is true | `if 3 > 5 { ... }`, once the test is awaited, runs its block | read the comparison's text as the ternary does (src/interpreter/index.ts:539-540), so the block runs exactly when the comparison holds | not executed | EvaluationFacts.IfOnComparisonTakesConsequent | TokenUnits.ComparisonConditionIntended |
