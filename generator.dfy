/**
 * The Solidity generator (src/SolidityGenerator.js): a total mapping from the
 * program, as the transformers leave it, to source text. It never changes
 * the program.
 *
 * The recursive renderers of types, expressions and statements are
 * functions. `generate`, `generateContract`, `generateModifier` and
 * `generateFunction` collect lines in a list inside loops and join them with
 * newlines; each is a method proved to produce the join of the line list
 * that a function of the same name with `Lines` in it describes.
 */
module Generator {
  import opened Ast
  import opened Text

  const License := "// SPDX-License-Identifier: MIT"
  const DefaultVersion := "^0.8.0"
  const Placeholder := "        _;"
  const ConstructorLines := ["    constructor() {", "        owner = msg.sender;", "    }"]

  /** `xs.map(f)` for a line renderer `f`. */
  function MapLines<T>(xs: seq<T>, f: T -> string): (r: seq<string>)
    ensures |r| == |xs|
  {
    if xs == [] then [] else MapLines(xs[..|xs| - 1], f) + [f(xs[|xs| - 1])]
  }

  /** Line `i` is the rendering of element `i`. */
  lemma {:induction false} MapLinesAt<T>(xs: seq<T>, f: T -> string, i: nat)
    requires i < |xs|
    ensures MapLines(xs, f)[i] == f(xs[i])
    decreases |xs|
  {
    if i < |xs| - 1 {
      MapLinesAt(xs[..|xs| - 1], f, i);
    }
  }

  /** One more element, one more line. */
  lemma MapLinesSnoc<T>(xs: seq<T>, i: nat, f: T -> string)
    requires i < |xs|
    ensures MapLines(xs[..i + 1], f) == MapLines(xs[..i], f) + [f(xs[i])]
  {
    assert xs[..i + 1][..i] == xs[..i];
  }

  // ---------------------------------------------------------------------
  // Types and expressions
  // ---------------------------------------------------------------------

  /** `generateType`: a missing type is "unknown"; mappings and arrays use their sub-types, whether present or not. */
  function TypeText(t: Option<Type>): string
    decreases t
  {
    match t
    case None => "unknown"
    case Some(ty) =>
      if ty.name == "mapping" then "mapping(" + TypeText(ty.keyType) + " => " + TypeText(ty.valueType) + ")"
      else if ty.name == "array" then TypeText(ty.valueType) + "[]"
      else ty.name
  }

  /** The text that reports an expression node of an unknown kind. */
  function UnsupportedExpression(kind: string): string {
    "/* Unsupported expression type: " + kind + " */"
  }

  /** `generateExpression` for a present expression. */
  function ExpressionText(e: Expr): string
    decreases e, 1
  {
    match e
    case Identifier(name) => name
    case Literal(value, _) => value
    case LValue(name, indices) => name + IndicesText(indices)
    case BinaryExpression(left, op, right) => ExpressionText(left) + " " + op + " " + ExpressionText(right)
    case UnaryExpression(op, operand) => op + ExpressionText(operand)
    case FunctionCall(name, args) => name + "(" + Join(ExpressionTexts(args), ", ") + ")"
    case UnknownExpression(kind) => UnsupportedExpression(kind)
  }

  /** The texts of a list of expressions, in order. */
  function ExpressionTexts(es: seq<Expr>): (ts: seq<string>)
    ensures |ts| == |es|
    decreases es, 0
  {
    if es == [] then [] else [ExpressionText(es[0])] + ExpressionTexts(es[1..])
  }

  /** `[i]` for every index of an l-value, in order. */
  function IndicesText(indices: seq<Expr>): string
    decreases indices, 0
  {
    if indices == [] then [] else "[" + ExpressionText(indices[0]) + "]" + IndicesText(indices[1..])
  }

  // ---------------------------------------------------------------------
  // Statements
  // ---------------------------------------------------------------------

  /** The four statement kinds `generateStatement` renders. */
  predicate Supported(s: Statement) {
    s.RequireStatement? || s.AssignmentStatement? || s.EmitStatement? || s.ReturnStatement?
  }

  /** The text that reports a statement of an unknown kind. */
  function UnsupportedStatement(kind: string): string {
    "/* Unsupported statement type: " + kind + " */"
  }

  /**
   * `generateStatement` with its four helpers. A placeholder is not one of
   * the four kinds: outside a modifier it is reported as unsupported.
   */
  function StatementText(s: Statement): string {
    match s
    case RequireStatement(condition, message) =>
      if message.Some? then "require(" + ExpressionText(condition) + ", " + ExpressionText(message.value) + ");"
      else "require(" + ExpressionText(condition) + ");"
    case AssignmentStatement(target, op, value) =>
      ExpressionText(target) + " " + op + " " + ExpressionText(value) + ";"
    case EmitStatement(event, args) => "emit " + event + "(" + Join(ExpressionTexts(args), ", ") + ");"
    case ReturnStatement(value) =>
      if value.None? then "return;" else "return " + ExpressionText(value.value) + ";"
    case _ => UnsupportedStatement(StatementKind(s))
  }

  // ---------------------------------------------------------------------
  // Declarations
  // ---------------------------------------------------------------------

  function ParameterText(p: Parameter): string {
    TypeText(Some(p.paramType)) + " " + p.name
  }

  /** Parameters as `<type> <name>`, separated by ", ". */
  function ParametersText(ps: seq<Parameter>): string {
    Join(MapLines(ps, ParameterText), ", ")
  }

  /** Whether an initializer is the identifier `msg.sender`, which the generator leaves to the constructor. */
  predicate IsSenderIdentifier(e: Expr) {
    e.Identifier? && e.name == "msg.sender"
  }

  /** `generateStateVariable`. */
  function StateVariableText(v: StateVariable): string {
    var code := TypeText(Some(v.varType)) + " " + v.name;
    if v.initialValue.Some? && !IsSenderIdentifier(v.initialValue.value) then
      code + " = " + ExpressionText(v.initialValue.value) + ";"
    else
      code + ";"
  }

  /** `generateEvent`. */
  function EventText(e: Event): string {
    "event " + e.name + "(" + ParametersText(e.parameters) + ");"
  }

  /** One line of a modifier body: a placeholder is `_;`, anything else its statement text. */
  function ModifierBodyLine(s: Statement): string {
    if s.PlaceholderStatement? then Placeholder else "        " + StatementText(s)
  }

  /** The lines of `generateModifier`; a modifier without a body gets a lone placeholder. */
  function ModifierLines(m: Modifier): seq<string> {
    ["    modifier " + m.name + "(" + ParametersText(m.parameters) + ") {"]
    + (if m.body.Some? then MapLines(m.body.value, ModifierBodyLine) else [Placeholder])
    + ["    }"]
  }

  function ModifierText(m: Modifier): string {
    Join(ModifierLines(m), "\n")
  }

  /** The modifier names after ` public`: a space and the names separated by spaces, or nothing. */
  function ModifiersSuffix(modifiers: Option<seq<string>>): string {
    if modifiers.Some? && |modifiers.value| > 0 then " " + Join(modifiers.value, " ") else ""
  }

  function ReturnsSuffix(returnType: Option<Type>): string {
    if returnType.Some? then " returns (" + TypeText(returnType) + ")" else ""
  }

  function FunctionHeader(f: Function): string {
    "    function " + f.name + "(" + ParametersText(f.parameters) + ") public"
    + ModifiersSuffix(f.modifiers) + ReturnsSuffix(f.returnType) + " {"
  }

  function BodyLine(s: Statement): string {
    "        " + StatementText(s)
  }

  /** The lines of `generateFunction`: header, one line per statement, the closing brace and an empty line. */
  function FunctionLines(f: Function): seq<string> {
    [FunctionHeader(f)] + MapLines(f.body, BodyLine) + ["    }", ""]
  }

  function FunctionText(f: Function): string {
    Join(FunctionLines(f), "\n")
  }

  // ---------------------------------------------------------------------
  // Contracts and programs
  // ---------------------------------------------------------------------

  /** The comment line that opens a section. */
  function SectionComment(title: string): string {
    "    // " + title
  }

  /** A section: an empty line, its comment and its lines; nothing at all when it has no lines. */
  function Section(title: string, items: seq<string>): seq<string> {
    if items == [] then [] else ["", SectionComment(title)] + items
  }

  /**
   * The constructor is wanted when some state variable named `owner` has no
   * initializer or one whose `name` is "msg.sender", whatever its kind.
   */
  predicate NeedsConstructor(c: Contract) {
    exists i :: 0 <= i < |Variables(c)| && Variables(c)[i].name == "owner"
      && (Variables(c)[i].initialValue.None? || NameOf(Variables(c)[i].initialValue.value) == Some("msg.sender"))
  }

  function StateLine(v: StateVariable): string {
    "    " + StateVariableText(v)
  }

  function EventLine(e: Event): string {
    "    " + EventText(e)
  }

  function StateLines(c: Contract): seq<string> {
    MapLines(Variables(c), StateLine)
  }

  function EventLines(c: Contract): seq<string> {
    MapLines(c.events, EventLine)
  }

  function ModifierTexts(c: Contract): seq<string> {
    MapLines(c.modifiers.GetOr([]), ModifierText)
  }

  function FunctionTexts(c: Contract): seq<string> {
    MapLines(c.functions, FunctionText)
  }

  /** The lines of `generateContract`: declaration, the five sections in their fixed order, closing brace. */
  function ContractLines(c: Contract): seq<string> {
    ["contract " + c.name + " {"]
    + Section("State variables", StateLines(c))
    + Section("Events", EventLines(c))
    + Section("Modifiers", ModifierTexts(c))
    + Section("Constructor", if NeedsConstructor(c) then ConstructorLines else [])
    + Section("Functions", FunctionTexts(c))
    + ["}"]
  }

  function ContractText(c: Contract): string {
    Join(ContractLines(c), "\n")
  }

  /** `ast.metadata?.solidityVersion || "^0.8.0"`: a falsy or missing value falls back to the default. */
  function PragmaVersion(metadata: Option<Metadata>): string {
    if metadata.Some? && "solidityVersion" in metadata.value then
      match metadata.value["solidityVersion"]
      case MetaString(text) => if text == "" then DefaultVersion else text
      case MetaBool(flag) => if flag then "true" else DefaultVersion
    else DefaultVersion
  }

  /** The lines of `generate`: license, pragma, an empty line, then one block per contract. */
  function ProgramLines(p: Program): seq<string> {
    [License, "pragma solidity " + PragmaVersion(p.metadata) + ";", ""]
    + MapLines(p.contracts, ContractText)
  }

  function ProgramText(p: Program): string {
    Join(ProgramLines(p), "\n")
  }

  // ---------------------------------------------------------------------
  // The line-collecting loops
  // ---------------------------------------------------------------------

  /** `SolidityGenerator.generateModifier`. */
  method GenerateModifier(modifier: Modifier) returns (code: string)
    ensures code == ModifierText(modifier)
  {
    var header := "    modifier " + modifier.name + "(" + ParametersText(modifier.parameters) + ") {";
    var lines := [header];
    if modifier.body.Some? {
      var body := modifier.body.value;
      for i := 0 to |body|
        invariant lines == [header] + MapLines(body[..i], ModifierBodyLine)
      {
        MapLinesSnoc(body, i, ModifierBodyLine);
        if body[i].PlaceholderStatement? {
          lines := lines + [Placeholder];
        } else {
          lines := lines + ["        " + StatementText(body[i])];
        }
      }
      assert body[..|body|] == body;
    } else {
      lines := lines + [Placeholder];
    }
    lines := lines + ["    }"];
    code := Join(lines, "\n");
  }

  /** `SolidityGenerator.generateFunction`. */
  method GenerateFunction(func: Function) returns (code: string)
    ensures code == FunctionText(func)
  {
    var body := func.body;
    var lines := [FunctionHeader(func)];
    for i := 0 to |body|
      invariant lines == [FunctionHeader(func)] + MapLines(body[..i], BodyLine)
    {
      MapLinesSnoc(body, i, BodyLine);
      lines := lines + [BodyLine(body[i])];
    }
    assert lines == [FunctionHeader(func)] + MapLines(body, BodyLine) by {
      assert body[..|body|] == body;
    }
    lines := lines + ["    }"];
    lines := lines + [""];
    assert lines == FunctionLines(func);
    code := Join(lines, "\n");
  }

  /** Appends the rendering of each element of `xs`, in order, to `head`. */
  method AppendAll<T>(head: seq<string>, xs: seq<T>, f: T -> string) returns (r: seq<string>)
    ensures r == head + MapLines(xs, f)
  {
    r := head;
    for i := 0 to |xs|
      invariant r == head + MapLines(xs[..i], f)
    {
      MapLinesSnoc(xs, i, f);
      r := r + [f(xs[i])];
    }
    assert xs[..|xs|] == xs;
  }

  /**
   * Appends the text `generateModifier` produces for each modifier. This and
   * the two loops below take the text function as a ghost parameter `f`,
   * equal to the generator's own function: the loop invariant then speaks of
   * `f`, and the verifier does not unfold the whole text of a modifier,
   * function or contract at every pass.
   */
  method AppendModifierTexts(head: seq<string>, xs: seq<Modifier>, ghost f: Modifier -> string) returns (r: seq<string>)
    requires forall m :: f(m) == ModifierText(m)
    ensures r == head + MapLines(xs, f)
  {
    r := head;
    for i := 0 to |xs|
      invariant r == head + MapLines(xs[..i], f)
    {
      MapLinesSnoc(xs, i, f);
      var text := GenerateModifier(xs[i]);
      r := r + [text];
    }
    assert xs[..|xs|] == xs;
  }

  /** Appends the text `generateFunction` produces for each function. */
  method AppendFunctionTexts(head: seq<string>, xs: seq<Function>, ghost f: Function -> string) returns (r: seq<string>)
    requires forall g :: f(g) == FunctionText(g)
    ensures r == head + MapLines(xs, f)
  {
    r := head;
    for i := 0 to |xs|
      invariant r == head + MapLines(xs[..i], f)
    {
      MapLinesSnoc(xs, i, f);
      var text := GenerateFunction(xs[i]);
      r := r + [text];
    }
    assert xs[..|xs|] == xs;
  }

  /** Appends the text `generateContract` produces for each contract. */
  method AppendContractTexts(head: seq<string>, xs: seq<Contract>, ghost f: Contract -> string) returns (r: seq<string>)
    requires forall c :: f(c) == ContractText(c)
    ensures r == head + MapLines(xs, f)
  {
    r := head;
    for i := 0 to |xs|
      invariant r == head + MapLines(xs[..i], f)
    {
      MapLinesSnoc(xs, i, f);
      r := AppendContractText(r, xs[i], f);
    }
    assert xs[..|xs|] == xs;
  }

  /** One pass of the loop of `generate`: the text `generateContract` produces for one more contract. */
  method AppendContractText(lines: seq<string>, contract: Contract, ghost f: Contract -> string) returns (r: seq<string>)
    requires forall c :: f(c) == ContractText(c)
    ensures r == lines + [f(contract)]
  {
    var text := GenerateContract(contract);
    r := lines + [text];
  }

  /** The state-variable section of `generateContract`, appended to `lines`. */
  method AppendStateSection(contract: Contract, lines: seq<string>) returns (r: seq<string>)
    ensures r == lines + Section("State variables", StateLines(contract))
  {
    r := lines;
    var xs := Variables(contract);
    if |xs| > 0 {
      r := AppendAll(r + ["", SectionComment("State variables")], xs, StateLine);
    }
  }

  /** The event section of `generateContract`, appended to `lines`. */
  method AppendEventSection(contract: Contract, lines: seq<string>) returns (r: seq<string>)
    ensures r == lines + Section("Events", EventLines(contract))
  {
    r := lines;
    var xs := contract.events;
    if |xs| > 0 {
      r := AppendAll(r + ["", SectionComment("Events")], xs, EventLine);
    }
  }

  /** The modifier section of `generateContract`: only when the contract has a non-empty modifier list. */
  method AppendModifierSection(contract: Contract, lines: seq<string>) returns (r: seq<string>)
    ensures r == lines + Section("Modifiers", ModifierTexts(contract))
  {
    r := lines;
    if contract.modifiers.Some? && |contract.modifiers.value| > 0 {
      r := AppendModifierTexts(r + ["", SectionComment("Modifiers")], contract.modifiers.value, ModifierText);
    }
  }

  /** The function section of `generateContract`, appended to `lines`. */
  method AppendFunctionSection(contract: Contract, lines: seq<string>) returns (r: seq<string>)
    ensures r == lines + Section("Functions", FunctionTexts(contract))
  {
    r := lines;
    var xs := contract.functions;
    if |xs| > 0 {
      r := AppendFunctionTexts(r + ["", SectionComment("Functions")], xs, FunctionText);
    }
  }

  /** `SolidityGenerator.generateContract`: the sections in their fixed order. */
  method GenerateContract(contract: Contract) returns (code: string)
    ensures code == ContractText(contract)
  {
    var lines := ["contract " + contract.name + " {"];
    lines := AppendStateSection(contract, lines);
    lines := AppendEventSection(contract, lines);
    lines := AppendModifierSection(contract, lines);
    ghost var before := lines;
    if NeedsConstructor(contract) {
      lines := lines + ["", "    // Constructor"];
      lines := lines + ["    constructor() {"];
      lines := lines + ["        owner = msg.sender;"];
      lines := lines + ["    }"];
      assert |ConstructorLines| == 3 && SectionComment("Constructor") == "    // Constructor";
      assert lines == before + (["", SectionComment("Constructor")] + ConstructorLines);
    }
    assert lines == before + Section("Constructor", if NeedsConstructor(contract) then ConstructorLines else []);
    lines := AppendFunctionSection(contract, lines);
    lines := lines + ["}"];
    assert lines == ContractLines(contract);
    code := Join(lines, "\n");
  }

  /** `SolidityGenerator.generate`. */
  method Generate(ast: Program) returns (code: string)
    ensures code == ProgramText(ast)
  {
    var solidityCode := [License];
    var solidityVersion := PragmaVersion(ast.metadata);
    solidityCode := solidityCode + ["pragma solidity " + solidityVersion + ";"];
    solidityCode := solidityCode + [""];
    solidityCode := AppendContractTexts(solidityCode, ast.contracts, ContractText);
    assert solidityCode == ProgramLines(ast);
    code := Join(solidityCode, "\n");
  }
}
