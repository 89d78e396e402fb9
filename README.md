# SmartLang security pipeline, Solidity generator and DSL parser helpers

This project is a Dafny model of the core of SmartLang, a transpiler from a small contract DSL to Solidity.
Security controls are declared as decorators on contracts and functions.
The model covers four parts:

- **AST** (`ast.dfy`): the node records of `src/ast/nodes.js` as one closed family of datatypes.
  `Modifier` and `PlaceholderStatement` are first-class variants.
  `UnknownExpression(kind)` and `UnknownStatement(kind)` stand for nodes whose `type` tag is outside the closed set.
  Their only role is to exercise the generator's degrade path.
  The node constructors, with their `|| []` and `|| null` defaults, are the `New…` functions.
- **Transformers** (`insertions.dfy`, `safe_math.dfy`, `only_owner.dfy`, `reentrancy_guard.dfy`, `objects.dfy`).
  The transformers mutate one contract object and one function object in place.
  They are modelled as methods on the classes `ContractNode` and `FunctionNode`, whose mutable fields are the state section, the modifier list and the modifier-name list.
  Each method is proved equal to a value-level function `Apply`.
  Lemmas about `Apply` state the transformer's promises: append-only, established names, idempotence, and shared versus per-function names.
- **Orchestrator** (`pipeline.dfy`, `pipeline_props.dfy`, `order_props.dfy`).
  `ApplySecurityTransformations` makes the deep copy and runs the two nested loops.
  It is proved to build the value `Transformed(p)`.
  Lemmas state the following about that value: the closed form, which functions stay unchanged, the `[nonReentrant_f, onlyOwner]` order, idempotence of the whole pipeline, and independence from the order of the two function transformers up to list order.
- **Generator** (`generator.dfy`, `generator_props.dfy`).
  Rendering types, expressions and statements is done by total recursive functions over `seq<char>`.
  `generate`, `generateContract`, `generateModifier` and `generateFunction` are methods with loops.
  Each is proved to return the newline-join of a line-list function.
  Lemmas about the line lists state the following:
  - the fixed file header and section order;
  - the constructor rule (exactly one constructor, or none);
  - placeholders;
  - the header's modifier order;
  - the text of unknown kinds.
- **DSL parser** (`text.dfy`, `parser.dfy`, `parser_props.dfy`, `cursor.dfy`, `cursor_props.dfy`).
  `text.dfy` models the JavaScript string primitives: `trim`, `indexOf`, `includes`, `split`, `join` and `replace` with a string pattern.
  `parser.dfy` models the string helpers.
  The line cursor is the class `SmartDslParser`, with a `currentIndex` field.
  Its loops are methods proved equal to functions over the line list.
- **Fixture** (`fixture.dfy`): the hand-built SimpleToken AST of `src/astBuilder.js`, and what the pipeline and the generator make of it.

Where the design description and the code disagree, the model follows the code:

- `OnlyOwner` synthesizes `owner` with the initializer `Identifier("msg.sender")`, not without an initializer.
  The generator drops that initializer and emits the constructor.
- `Type` does not validate anything.
  A `mapping` may lack its key or value type, and the generator then prints `unknown` for the missing part.
- Nothing checks that a modifier body holds exactly one placeholder, or that a function's modifier names resolve.
- The metadata key the generator reads is `solidityVersion`.
- `parseStateVariable` cuts the text after the colon at its first `=`, and in a mapping type that is the `=` of `=>`.
  So no state variable is ever read with a mapping type: `balances: mapping(address => uint256)` gets the type `mapping(address` and the initializer `Identifier("> uint256)")`.
  The model reproduces this (`ParserProps.MappingStateVariableMisread`).
  The two state-variable lemmas beside it speak of types without `=`.
- The two function transformers do not produce identical lists in either order, only equal multisets (`OrderProps.OrderIndependent`).

## Model

| member | source | states |
|---|---|---|
| Ast.NewProgram | src/ast/nodes.js:9-14 | `contracts` defaults to the empty list; no metadata at construction |
| Ast.NewContract | src/ast/nodes.js:16-25 | decorators, functions and events default to empty lists; state is kept as given; there is no modifier list at construction |
| Ast.NewStateDeclaration | src/ast/nodes.js:34-39 | variables default to the empty list |
| Ast.NewFunction | src/ast/nodes.js:50-59 | parameters, decorators and body default to empty lists; the return type is stored as given, possibly absent; no modifier names |
| Ast.NewEvent | src/ast/nodes.js:78-84 | parameters default to the empty list |
| Ast.NewLValue | src/ast/nodes.js:127-133 | an LValue whose indices default to the empty list |
| Ast.NewEmitStatement | src/ast/nodes.js:104-110 | an emit whose arguments default to the empty list |
| Ast.NewFunctionCall | src/ast/nodes.js:152-158 | a call whose arguments default to the empty list |
| Insertions.WithVariable | src/transformers/OnlyOwnerTransformer.js:24-50 | a missing list is created; the result holds the name; it is the old list, or the old list plus `v`; it is unchanged iff a variable of that name already existed |
| Insertions.WithModifier | src/transformers/OnlyOwnerTransformer.js:53-89 | a missing list is created; the result holds the name; old list or old list plus `m`; unchanged iff a modifier of that name existed |
| Insertions.WithName | src/transformers/OnlyOwnerTransformer.js:92-99 | a missing list is created; the name is present afterwards; old list or old list plus the name; unchanged iff already included |
| Insertions.WithVariableCounts | src/transformers/ReentrancyGuardTransformer.js:35-51 | a variable name occurs once after insertion if it was absent, otherwise as often as before: a guarded insert never duplicates |
| Insertions.WithModifierCounts | src/transformers/ReentrancyGuardTransformer.js:58-109 | the same count rule for modifier names |
| Insertions.WithNameCounts | src/transformers/ReentrancyGuardTransformer.js:112-119 | the same count rule for a function's modifier names |
| SafeMath.Mark | src/transformers/SafeMathTransformer.js:20-25 | `usesSafeMath` is true, `solidityVersion` is "^0.8.0", other keys are kept, and missing metadata is created |
| SafeMath.MarkIdempotent | src/transformers/SafeMathTransformer.js:20-25 | marking twice equals marking once |
| SafeMath.Transform | src/transformers/SafeMathTransformer.js:13-34 | only the program's metadata changes, to `Mark` of the old metadata; the same program object is returned |
| OnlyOwner.OwnerModifier | src/transformers/OnlyOwnerTransformer.js:63-89 | the modifier is named `onlyOwner` and its body holds exactly one placeholder |
| OnlyOwner.Transform | src/transformers/OnlyOwnerTransformer.js:17-102 | the new state section, modifier list and modifier names are the guarded inserts of the old ones; nothing else is modified |
| OnlyOwner.ApplyOnlyAppends | src/transformers/OnlyOwnerTransformer.js:17-101 | only appends: old variables, modifiers and names are kept, each addition happens iff its name was absent, and other functions are unchanged |
| OnlyOwner.ApplyEstablishes | src/transformers/OnlyOwnerTransformer.js:33-99 | afterwards `owner`, `onlyOwner` and the function's reference to `onlyOwner` all exist |
| OnlyOwner.ApplyKeepsShape | src/transformers/OnlyOwnerTransformer.js:17-101 | name, decorators, events and every function's params, body and decorators are unchanged |
| OnlyOwner.ApplyIdempotent | src/transformers/OnlyOwnerTransformer.js:33-99 | a second application to the same function changes nothing |
| OnlyOwner.OwnerIsShared | src/transformers/OnlyOwnerTransformer.js:34-60 | two decorated functions give exactly one `owner` and one `onlyOwner`, and both functions list it |
| ReentrancyGuard.LockName | src/transformers/ReentrancyGuardTransformer.js:21 | the lock name is `_reentrancyLock_` followed by the function name, which can be read back |
| ReentrancyGuard.GuardName | src/transformers/ReentrancyGuardTransformer.js:22 | the guard name is `nonReentrant_` followed by the function name, which can be read back |
| ReentrancyGuard.GuardModifier | src/transformers/ReentrancyGuardTransformer.js:63-108 | a four-statement body with exactly one placeholder, at position 2 |
| ReentrancyGuard.NamesInjective | src/transformers/ReentrancyGuardTransformer.js:21-22 | distinct function names give distinct lock and guard names |
| ReentrancyGuard.NamesDistinctFromOwner | src/transformers/ReentrancyGuardTransformer.js:21-22 | a lock is never `owner` and a guard is never `onlyOwner` |
| ReentrancyGuard.Transform | src/transformers/ReentrancyGuardTransformer.js:17-122 | the new state, modifiers and names are the guarded inserts of the function's lock, guard and guard name; nothing else is modified |
| ReentrancyGuard.ApplyOnlyAppends | src/transformers/ReentrancyGuardTransformer.js:17-121 | only appends, each addition happens iff its name was absent, and other functions are unchanged |
| ReentrancyGuard.ApplyEstablishes | src/transformers/ReentrancyGuardTransformer.js:24-119 | afterwards the lock, the guard and the function's reference to it exist |
| ReentrancyGuard.ApplyKeepsShape | src/transformers/ReentrancyGuardTransformer.js:17-121 | nothing outside state, modifiers and that function's names changes |
| ReentrancyGuard.ApplyIdempotent | src/transformers/ReentrancyGuardTransformer.js:35-119 | a second application to the same function changes nothing |
| ReentrancyGuard.GuardsAreSeparate | src/transformers/ReentrancyGuardTransformer.js:20-119 | two differently named functions each get exactly one lock and one guard, and each lists only its own guard |
| Objects.ProgramNode.Copy | src/transformers/index.js:15 | the deep copy: fresh objects with the input's value, sharing nothing |
| Objects.CopyFunctions | src/transformers/index.js:15 | fresh, pairwise distinct function objects holding the given values |
| Pipeline.TransformFunctionAt | src/transformers/index.js:31-52 | one function: the reentrancy guard if decorated, then `only_owner` if decorated, equal to `TransformFunction` |
| Pipeline.TransformContractNode | src/transformers/index.js:28-54 | the loop over functions in declaration order equals `TransformContract` |
| Pipeline.VisitContract | src/transformers/index.js:18-55 | SafeMath runs iff the contract has `safe_math`; only this contract's value changes |
| Pipeline.ApplySecurityTransformations | src/transformers/index.js:11-58 | the result is `Transformed(ast)`, built on a fresh copy, so the input is not changed |
| PipelineProps.TransformedClosedForm | src/transformers/index.js:18-55 | every contract is transformed on its own; metadata is marked iff some contract has `safe_math` |
| PipelineProps.SafeMathVersion | src/transformers/index.js:20-25 | with some `safe_math` contract, the metadata records "^0.8.0" and `usesSafeMath` |
| PipelineProps.UndecoratedFunctionUnchanged | src/transformers/index.js:31-52 | a function with neither decorator comes out exactly as it went in |
| PipelineProps.BothDecoratorsOrder | src/transformers/index.js:31-52 | a function with both decorators and neither name yet ends with `[…, nonReentrant_f, onlyOwner]` |
| PipelineProps.TransformFunctionSettles | src/transformers/index.js:29-53 | after its step, everything a function's decorators ask for is in place |
| PipelineProps.TransformContractIdempotent | src/transformers/index.js:28-54 | transforming a transformed contract changes nothing |
| PipelineProps.PipelineIdempotent | src/transformers/index.js:11-58 | running the pipeline on its own output gives the same program |
| OrderProps.GuardOwnerCommute | src/transformers/index.js:31-52 | on one function, guard-then-owner and owner-then-guard agree up to the order of the lists |
| OrderProps.OrderIndependent | src/transformers/index.js:28-54 | either transformer order gives the same multisets of variables, modifiers and per-function modifier names |
| Generator.Generate | src/SolidityGenerator.js:11-28 | the loop produces the join of license, pragma, blank line and one block per contract |
| Generator.GenerateContract | src/SolidityGenerator.js:35-100 | the sections come in the fixed order state, events, modifiers, constructor, functions, and each is omitted when empty |
| Generator.GenerateModifier | src/SolidityGenerator.js:142-167 | a placeholder is `_;`, other statements are rendered, and a missing body gives one `_;` |
| Generator.GenerateFunction | src/SolidityGenerator.js:174-208 | the header, then one line per body statement, the closing brace and an empty line |
| Generator.AppendStateSection | src/SolidityGenerator.js:42-52 | the state section is appended only when there are variables |
| Generator.AppendEventSection | src/SolidityGenerator.js:54-61 | the event section is appended only when there are events |
| Generator.AppendModifierSection | src/SolidityGenerator.js:63-70 | the modifier section is appended only for a present, non-empty list |
| Generator.AppendFunctionSection | src/SolidityGenerator.js:87-94 | the function section is appended only when there are functions |
| GeneratorProps.ProgramHeader | src/SolidityGenerator.js:11-20 | the text starts with the license line, then `pragma solidity V;` |
| GeneratorProps.ProgramBlocks | src/SolidityGenerator.js:22-27 | line 3+i is the block of contract i, in order |
| GeneratorProps.SafeMathPragma | src/SolidityGenerator.js:17-19 | after the pipeline, the pragma is "^0.8.0" when a contract has `safe_math`, and otherwise as before |
| GeneratorProps.PragmaReadsOnlyVersion | src/SolidityGenerator.js:18 | only the `solidityVersion` key matters, and a missing key gives "^0.8.0" |
| GeneratorProps.StatementTextEnding | src/SolidityGenerator.js:215-282 | a statement text ends with `;` iff its kind is one of the four known ones; others give the unsupported comment |
| GeneratorProps.UnknownKindsOneLine | src/SolidityGenerator.js:289-318 | an unknown expression or statement renders as one comment line that contains the kind's name |
| GeneratorProps.FunctionLayout | src/SolidityGenerator.js:174-208 | `body + 3` lines, with statement i on line 1+i |
| GeneratorProps.GuardedOwnedHeader | src/SolidityGenerator.js:187-196 | a function with both decorators renders ` public nonReentrant_f onlyOwner` |
| GeneratorProps.ModifierNamesReadBack | src/SolidityGenerator.js:188-191 | the names after ` public` split back into the recorded list, in order |
| GeneratorProps.ModifierPlaceholders | src/SolidityGenerator.js:153-163 | one `_;` line per placeholder statement, or exactly one when there is no body |
| GeneratorProps.SecurityModifiersOnePlaceholder | src/SolidityGenerator.js:153-163 | the synthesized guard and `onlyOwner` each render exactly one `_;` |
| GeneratorProps.ConstructorOnce | src/SolidityGenerator.js:72-85 | the constructor header occurs as one element of the contract's line list iff the owner rule holds, and otherwise never; a modifier or function block is one element, and its inner lines are indented deeper than the header |
| GeneratorProps.OwnerStateLine | src/SolidityGenerator.js:107-122 | the synthesized owner renders as `address owner;` |
| GeneratorProps.SenderInitializerDroppedForAnyName | src/SolidityGenerator.js:110-117 | any variable initialised to identifier `msg.sender` loses its initializer, and no constructor is emitted for a non-owner |
| GeneratorProps.CalledSenderKeepsInitializer | src/SolidityGenerator.js:73-77 | an owner initialised to a call named `msg.sender` keeps its initializer and still gets the constructor |
| GeneratorProps.OwnerRenderedWithConstructor | src/SolidityGenerator.js:73-85 | after `onlyOwner` adds `owner`, the last state line is `address owner;` and the constructor is emitted once |
| Parser.ParseArgumentList | src/parser.js:378-407 | the character loop equals the scan `ArgumentList` |
| Parser.ParseEmitStatement | src/parser.js:360-375 | a blank argument string gives no arguments; otherwise the argument loop |
| Parser.ParseStatementLine | src/parser.js:266-284 | the branch order require, assignment, emit, return equals `ParseStatement` |
| Parser.MappingSides | src/parser.js:135-152 | both sides are strictly shorter than the type text, so `parseType` terminates |
| ParserProps.ParseExpressionKinds | src/parser.js:154-169 | a number literal iff all digits; boolean for true/false; a string for quoted text; an address for `address(...)`; an identifier iff no literal rule applies; the trimmed text is kept |
| ParserProps.ExpressionRoundTrip | src/parser.js:154-169 | the generator prints a parsed expression as its trimmed text, and reparsing that text changes nothing |
| ParserProps.TypeRoundTrip | src/parser.js:135-152 | a printed DSL type parses back to itself |
| ParserProps.MappingParts | src/parser.js:135-152 | a mapping is split at its first `=>` and both sides are parsed again |
| ParserProps.StateVariableNeedsColon | src/parser.js:111-115 | no variable iff the line has no colon |
| ParserProps.StateVariableWithValue | src/parser.js:111-133 | `n: ty = v` gives name, type and initializer, for a type without `=` |
| ParserProps.StateVariableWithoutValue | src/parser.js:111-133 | `n: ty` gives no initializer, for a type without `=` |
| ParserProps.MappingStateVariableMisread | src/parser.js:121-126 | `n: mapping(K => V)` is cut at the `=` of `=>`: the type is the scalar `mapping(K` and the initializer the identifier `> V)` |
| ParserProps.ParametersOfList | src/parser.js:223-239 | `name: type` pieces give one parameter each, in order |
| ParserProps.ParameterPiecesNone | src/parser.js:223-239 | pieces without a colon give no parameters |
| ParserProps.ArgumentsTrimmed | src/parser.js:378-407 | every argument prints as non-empty trimmed text, so blank pieces are dropped |
| ParserProps.ArgumentsOfList | src/parser.js:378-407 | the list is split only at commas met at parenthesis depth 0: pieces whose commas are inside parentheses and whose parentheses balance, such as `address(0)` or `f(a, b)`, stay whole, and the non-blank ones give one argument each, in order |
| ParserProps.EqualityIsNotAssignment | src/parser.js:323-344 | `a == b`, with no `+=` or `-=`, is no assignment |
| ParserProps.ReadAsAssignment | src/parser.js:266-278 | a trimmed line with `=` that does not start with `require(` is read as an assignment |
| ParserProps.ComparisonReturnDropped | src/parser.js:266-284 | `return a == b` is read as a failed assignment, so the statement is dropped |
| ParserProps.AssignmentRoundTrip | src/parser.js:323-357 | `t op v` parses to an assignment that prints back as `t op v;` |
| ParserProps.ConditionRoundTrip | src/parser.js:297-320 | `l >= r` prints back as written |
| Cursor.CleanLines | src/parser.js:6-13 | the lines are trimmed, non-empty and not `//`, and there are no more of them than raw lines |
| Cursor.SmartDslParser.Parse | src/parser.js:15-28 | the loop equals `ContractsFrom`, and the cursor ends at the last line |
| Cursor.SmartDslParser.ParseContract | src/parser.js:30-73 | equals `ContractAt`: the name line, then the members |
| Cursor.SmartDslParser.ParseMembers | src/parser.js:41-64 | the member loop equals `ContractFrom`, up to the next contract line |
| Cursor.SmartDslParser.ParseMember | src/parser.js:43-63 | one pass in the source's branch order equals `ContractStep` |
| Cursor.SmartDslParser.ParseDecorator | src/parser.js:75-80 | one line is consumed, and the name is the line without `@`, trimmed |
| Cursor.SmartDslParser.ParseState | src/parser.js:82-109 | the loop equals `StateFrom` and stops at a section start |
| Cursor.SmartDslParser.ParseFunction | src/parser.js:171-221 | equals `FunctionAt`: backward decorator search, then signature and body |
| Cursor.SmartDslParser.ParseFunctionBody | src/parser.js:241-264 | the loop equals `BodyFrom` |
| Cursor.SmartDslParser.ParseEvent | src/parser.js:414-429 | exactly one line is consumed |
| Cursor.StateFrom | src/parser.js:86-106 | the cursor stops at the end or at a section line, and passes no section line |
| Cursor.FunctionAt | src/parser.js:198-221 | an unmatched signature consumes one line; otherwise the body runs up to a section start |
| CursorProps.CleanLinesIdempotent | src/parser.js:8-11 | filtering the lines again changes nothing |
| CursorProps.ProgramContractNames | src/parser.js:15-28 | one contract per `contract ` line, named after it, in order |
| CursorProps.ContractDecorators | src/parser.js:43-52 | every `@` line a contract's loop passes over becomes a contract decorator, in order |
| CursorProps.FunctionDecorators | src/parser.js:174-196 | a function's decorators are the `@` lines above it, back to the line that ends the search |
| SimpleToken.TokenTransformed | src/transformers/index.js:28-54 | on the fixture, `mint` gets `["onlyOwner"]`, `transfer` gets `["nonReentrant_transfer"]`, and the lock follows the three declared variables |
| SimpleToken.TokenPipeline | src/transformers/index.js:11-58 | the whole pipeline on the fixture gives that contract plus the SafeMath metadata |
| SimpleToken.TokenGeneratedPreamble | src/SolidityGenerator.js:17-85 | the fixture gets the owner constructor and the "^0.8.0" pragma |
| SimpleToken.TransferHeader | src/SolidityGenerator.js:174-196 | the guarded `transfer` renders `address to, uint256 amount`, ` nonReentrant_transfer` and ` returns (bool)` |

## Left out

- The five regular expressions of the parser are parameters of type `Matchers`: the caller supplies total functions that return the capture groups or nothing.
  They cover the function signature, `require`, `emit`, `event` and indexed access.
- `parseSmartDSL`'s fallback to the hand-built AST on an exception is left out; it is exception plumbing.
- `src/compiler.js` is not part of this model: file I/O, `process.argv` and printing.
- `src/astBuilder.js` is used only as the fixture constant; its visitor is not modelled.
- Every `console.log` and `console.error` call is left out.
- The deep copy is modelled as fresh objects built from a value, not as JSON stringify/parse.
  The two agree on this AST, which holds only strings, arrays, plain objects and null.
- A `null` expression nested inside a binary, unary or assignment node cannot be written.
  In the source such an expression renders as the empty string.
  The optional fields (the `require` message, the return value, initializers) are `Option`s and are modelled.
- A contract whose `state` is the constructor's default empty array is `state == None` here.
  The transformers then give it a fresh variables list, which matches what the source does with that array.
- Metadata values are strings or booleans only.
  The pragma reads a string as it stands, `true` as "true", and an empty string or `false` as the default.
- The pre-0.8 SafeMath-library path is only a comment in the source; it is left out.
- Characters are Unicode code points.
  `trim` removes the JavaScript whitespace set, and there is no UTF-16 surrogate handling.
