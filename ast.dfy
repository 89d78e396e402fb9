/**
 * The abstract syntax tree shared by the DSL front end, the security
 * transformers and the Solidity generator (src/ast/nodes.js), as one closed
 * family of values. The two node kinds the transformers build as object
 * literals, `Modifier` and `PlaceholderStatement`, are first-class here.
 *
 * A JavaScript `null` or missing field is `None`. A node whose `type` tag is
 * outside the closed set (something the generator must survive) is
 * `UnknownExpression(kind)` or `UnknownStatement(kind)`, carrying its tag.
 */
module Ast {

  datatype Option<T> = None | Some(value: T) {
    function GetOr(default: T): T {
      match this
      case Some(v) => v
      case None => default
    }
  }

  /** A type name; "mapping" uses both sub-types, "array" uses `valueType`. Nothing checks that they are present. */
  datatype Type = Type(name: string, keyType: Option<Type>, valueType: Option<Type>)

  datatype Expr =
    | Identifier(name: string)
    | LValue(name: string, indices: seq<Expr>)
    | BinaryExpression(left: Expr, operator: string, right: Expr)
    | UnaryExpression(operator: string, operand: Expr)
    | FunctionCall(name: string, args: seq<Expr>)
    | Literal(value: string, valueType: string)
    | UnknownExpression(kind: string)

  datatype Statement =
    | RequireStatement(condition: Expr, message: Option<Expr>)
    | AssignmentStatement(target: Expr, operator: string, value: Expr)
    | EmitStatement(event: string, args: seq<Expr>)
    | ReturnStatement(returnValue: Option<Expr>)
    | PlaceholderStatement
    | UnknownStatement(kind: string)

  datatype Decorator = Decorator(name: string)

  /**
   * In the source the constructor's `type` tag of a parameter and of a state
   * variable is overwritten by the Type node (nodes.js assigns `this.type`
   * twice), so these two records carry their Type and no tag.
   */
  datatype Parameter = Parameter(name: string, paramType: Type)

  datatype StateVariable = StateVariable(name: string, varType: Type, initialValue: Option<Expr>)

  datatype StateDeclaration = StateDeclaration(variables: seq<StateVariable>)

  datatype Function = Function(
    name: string,
    parameters: seq<Parameter>,
    returnType: Option<Type>,
    decorators: seq<Decorator>,
    body: seq<Statement>,
    modifiers: Option<seq<string>>)

  /** A function modifier; `body` is absent when the node was built without one. */
  datatype Modifier = Modifier(name: string, parameters: seq<Parameter>, body: Option<seq<Statement>>)

  datatype Event = Event(name: string, parameters: seq<Parameter>)

  /**
   * `state` is None when the contract has no list of state variables: the
   * constructor's default for it is an empty array, which has no `variables`.
   */
  datatype Contract = Contract(
    name: string,
    decorators: seq<Decorator>,
    state: Option<StateDeclaration>,
    modifiers: Option<seq<Modifier>>,
    functions: seq<Function>,
    events: seq<Event>)

  datatype MetaValue = MetaString(text: string) | MetaBool(flag: bool)

  type Metadata = map<string, MetaValue>

  datatype Program = Program(contracts: seq<Contract>, metadata: Option<Metadata>)

  // Node constructors of src/ast/nodes.js, with their `|| []` and `|| null` defaults.

  function NewProgram(contracts: Option<seq<Contract>>): (p: Program)
    ensures p.contracts == (if contracts.Some? then contracts.value else [])
    ensures p.metadata == None
  {
    Program(contracts.GetOr([]), None)
  }

  function NewContract(
    name: string, decorators: Option<seq<Decorator>>, state: Option<StateDeclaration>,
    functions: Option<seq<Function>>, events: Option<seq<Event>>): (c: Contract)
    ensures c.name == name
    ensures c.decorators == (if decorators.Some? then decorators.value else [])
    ensures c.functions == (if functions.Some? then functions.value else [])
    ensures c.events == (if events.Some? then events.value else [])
    ensures c.state == state && c.modifiers == None
  {
    Contract(name, decorators.GetOr([]), state, None, functions.GetOr([]), events.GetOr([]))
  }

  function NewStateDeclaration(variables: Option<seq<StateVariable>>): (d: StateDeclaration)
    ensures d.variables == (if variables.Some? then variables.value else [])
  {
    StateDeclaration(variables.GetOr([]))
  }

  function NewFunction(
    name: string, parameters: Option<seq<Parameter>>, returnType: Option<Type>,
    decorators: Option<seq<Decorator>>, body: Option<seq<Statement>>): (f: Function)
    ensures f.name == name && f.returnType == returnType
    ensures f.parameters == (if parameters.Some? then parameters.value else [])
    ensures f.decorators == (if decorators.Some? then decorators.value else [])
    ensures f.body == (if body.Some? then body.value else [])
    ensures f.modifiers == None
  {
    Function(name, parameters.GetOr([]), returnType, decorators.GetOr([]), body.GetOr([]), None)
  }

  function NewEvent(name: string, parameters: Option<seq<Parameter>>): (e: Event)
    ensures e.parameters == (if parameters.Some? then parameters.value else [])
  {
    Event(name, parameters.GetOr([]))
  }

  function NewLValue(name: string, indices: Option<seq<Expr>>): (e: Expr)
    ensures e.LValue? && e.name == name
    ensures e.indices == (if indices.Some? then indices.value else [])
  {
    LValue(name, indices.GetOr([]))
  }

  function NewEmitStatement(event: string, args: Option<seq<Expr>>): (s: Statement)
    ensures s.EmitStatement? && s.event == event
    ensures s.args == (if args.Some? then args.value else [])
  {
    EmitStatement(event, args.GetOr([]))
  }

  function NewFunctionCall(name: string, args: Option<seq<Expr>>): (e: Expr)
    ensures e.FunctionCall? && e.name == name
    ensures e.args == (if args.Some? then args.value else [])
  {
    FunctionCall(name, args.GetOr([]))
  }

  /** A scalar type: no key or value type. */
  function ScalarType(name: string): Type {
    Type(name, None, None)
  }

  /** The `type` tag of an expression node. */
  function ExprKind(e: Expr): string {
    match e
    case Identifier(_) => "Identifier"
    case LValue(_, _) => "LValue"
    case BinaryExpression(_, _, _) => "BinaryExpression"
    case UnaryExpression(_, _) => "UnaryExpression"
    case FunctionCall(_, _) => "FunctionCall"
    case Literal(_, _) => "Literal"
    case UnknownExpression(k) => k
  }

  /** The `type` tag of a statement node. */
  function StatementKind(s: Statement): string {
    match s
    case RequireStatement(_, _) => "RequireStatement"
    case AssignmentStatement(_, _, _) => "AssignmentStatement"
    case EmitStatement(_, _) => "EmitStatement"
    case ReturnStatement(_) => "ReturnStatement"
    case PlaceholderStatement => "PlaceholderStatement"
    case UnknownStatement(k) => k
  }

  /** The `name` field of an expression node, which only identifiers, l-values and calls have. */
  function NameOf(e: Expr): Option<string> {
    match e
    case Identifier(n) => Some(n)
    case LValue(n, _) => Some(n)
    case FunctionCall(n, _) => Some(n)
    case _ => None
  }

  /** The variables of a state section; a missing variables list has none. */
  function VariablesOf(state: Option<StateDeclaration>): seq<StateVariable> {
    if state.Some? then state.value.variables else []
  }

  /** The state variables of a contract. */
  function Variables(c: Contract): seq<StateVariable> {
    VariablesOf(c.state)
  }

  /**
   * The names of state variables, in order. The transformers search the
   * variables and the modifiers by name separately, so the two name lists
   * have separate, like-shaped definitions.
   */
  function VariableNames(vs: seq<StateVariable>): (ns: seq<string>)
    ensures |ns| == |vs| && forall i :: 0 <= i < |vs| ==> ns[i] == vs[i].name
  {
    seq(|vs|, i requires 0 <= i < |vs| => vs[i].name)
  }

  /** The names of modifiers, in order. */
  function ModifierNames(ms: seq<Modifier>): (ns: seq<string>)
    ensures |ns| == |ms| && forall i :: 0 <= i < |ms| ==> ns[i] == ms[i].name
  {
    seq(|ms|, i requires 0 <= i < |ms| => ms[i].name)
  }

  /** `decorators.some(d => d.name === name)`. */
  predicate HasDecorator(ds: seq<Decorator>, name: string) {
    exists i :: 0 <= i < |ds| && ds[i].name == name
  }

  /** Number of placeholder statements in a statement list. */
  function CountPlaceholders(body: seq<Statement>): nat {
    if body == [] then 0
    else (if body[0].PlaceholderStatement? then 1 else 0) + CountPlaceholders(body[1..])
  }

  /** Two sequences of the same length that agree everywhere except at `k`. */
  lemma ReplacedAt<T>(vs: seq<T>, ws: seq<T>, k: nat)
    requires |vs| == |ws| && k < |vs|
    requires forall j :: 0 <= j < |vs| && j != k ==> ws[j] == vs[j]
    ensures ws == vs[k := ws[k]]
  {
  }
}
