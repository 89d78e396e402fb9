/**
 * The string helpers of the line-based DSL parser (src/parser.js): how an
 * expression, a type, a state variable, a parameter list, an argument list,
 * a condition and a statement are read from one trimmed line.
 *
 * The five regular expressions of the parser (function signature, `require`,
 * `emit`, `event`, indexed access) are not modelled: they are the fields of
 * a `Matchers` value the caller supplies, each a total function that either
 * finds its capture groups in a line or does not.
 */
module Parser {
  import opened Ast
  import opened Text

  /** The capture groups of `function name(params) -> ret:`; the return type is optional. */
  datatype Signature = Signature(name: string, params: string, returnType: Option<string>)

  datatype Matchers = Matchers(
    signature: string -> Option<Signature>,
    require: string -> Option<(string, string)>,
    emit: string -> Option<(string, string)>,
    event: string -> Option<(string, string)>,
    indexed: string -> Option<(string, string)>)

  /**
   * `s.substring(start, end)`: both bounds are clamped to the string, and
   * swapped when the start is after the end.
   */
  function Substring(s: string, start: int, end: int): (r: string)
    ensures |r| <= |s|
  {
    var a := if start < 0 then 0 else if start > |s| then |s| else start;
    var b := if end < 0 then 0 else if end > |s| then |s| else end;
    if a <= b then s[a..b] else s[b..a]
  }

  // ---------------------------------------------------------------------
  // Expressions and types
  // ---------------------------------------------------------------------

  /** `parseExpression`: a literal of one of four kinds, or an identifier, holding the trimmed text. */
  function ParseExpression(s: string): Expr {
    var t := Trim(s);
    if IsDigits(t) then Literal(t, "number")
    else if t == "true" || t == "false" then Literal(t, "boolean")
    else if StartsWith(t, "\"") && EndsWith(t, "\"") then Literal(t, "string")
    else if StartsWith(t, "address(") && EndsWith(t, ")") then Literal(t, "address")
    else Identifier(t)
  }

  /**
   * The two sides of a trimmed `mapping(K => V)`: the text between
   * `mapping(` and the last character, cut at its first `=>`, each side
   * trimmed. Nothing when the text is no mapping or has no `=>`.
   */
  function MappingSides(t: string): (r: Option<(string, string)>)
    ensures r.Some? ==> |r.value.0| < |t| && |r.value.1| < |t|
  {
    if StartsWith(t, "mapping(") then
      var content := Substring(t, 8, |t| - 1);
      var arrow := IndexOf(content, "=>");
      if arrow != -1 then Some((Trim(content[..arrow]), Trim(content[arrow + 2..])))
      else None
    else None
  }

  /**
   * `parseType`: a mapping is split at the first `=>` and both sides are
   * parsed again; anything else, a mapping without `=>` included, is a type
   * named by the trimmed text.
   */
  function ParseType(s: string): Type
    decreases |s|
  {
    var t := Trim(s);
    match MappingSides(t)
    case Some((key, value)) => Type("mapping", Some(ParseType(key)), Some(ParseType(value)))
    case None => ScalarType(t)
  }

  /** `parseStateVariable`: `name: type` or `name: type = value`; nothing without a colon. */
  function ParseStateVariable(line: string): Option<StateVariable> {
    var colon := IndexOf(line, ":");
    if colon == -1 then None
    else
      var name := Trim(line[..colon]);
      var rest := Trim(line[colon + 1..]);
      if Contains(rest, "=") then
        var equal := IndexOf(rest, "=");
        Some(StateVariable(name, ParseType(Trim(rest[..equal])), Some(ParseExpression(Trim(rest[equal + 1..])))))
      else
        Some(StateVariable(name, ParseType(rest), None))
  }

  // ---------------------------------------------------------------------
  // Parameters and arguments
  // ---------------------------------------------------------------------

  /** One comma-separated piece of a parameter list: `name: type`, or nothing without a colon. */
  function ParameterPiece(piece: string): Option<Parameter> {
    var colon := IndexOf(piece, ":");
    if colon == -1 then None
    else Some(Parameter(Trim(piece[..colon]), ParseType(Trim(piece[colon + 1..]))))
  }

  /** The parameters of the pieces that have a colon, in order. */
  function ParameterPieces(pieces: seq<string>): seq<Parameter> {
    if pieces == [] then []
    else
      (match ParameterPiece(pieces[0]) case Some(p) => [p] case None => [])
      + ParameterPieces(pieces[1..])
  }

  /** `parseParameters`: none for a blank string. */
  function ParseParameters(paramStr: string): seq<Parameter> {
    if Trim(paramStr) == [] then [] else ParameterPieces(Split(paramStr, ","))
  }

  /** The piece collected so far, when it is not blank, as one more argument. */
  function Flush(args: seq<Expr>, current: string): seq<Expr> {
    if Trim(current) != [] then args + [ParseExpression(Trim(current))] else args
  }

  /**
   * The character scan of `parseArgumentList` from index `i` on, with the
   * current piece, the parenthesis depth and what was collected so far: a
   * comma at depth 0 ends a piece, any other character joins it, and
   * `flush` adds a finished piece to the collection.
   */
  function Scan<T>(s: string, i: nat, current: string, depth: int, acc: T, flush: (T, string) -> T): T
    requires i <= |s|
    decreases |s| - i
  {
    if i == |s| then flush(acc, current)
    else if s[i] == '(' then Scan(s, i + 1, current + [s[i]], depth + 1, acc, flush)
    else if s[i] == ')' then Scan(s, i + 1, current + [s[i]], depth - 1, acc, flush)
    else if s[i] == ',' && depth == 0 then Scan(s, i + 1, [], depth, flush(acc, current), flush)
    else Scan(s, i + 1, current + [s[i]], depth, acc, flush)
  }

  /** The arguments `parseArgumentList` reads from `s`. */
  function ArgumentList(s: string): seq<Expr> {
    Scan(s, 0, [], 0, [], Flush)
  }

  /** `parseArgumentList`. */
  method ParseArgumentList(argsStr: string) returns (args: seq<Expr>)
    ensures args == ArgumentList(argsStr)
  {
    args := [];
    var current := "";
    var parenCount := 0;
    for i := 0 to |argsStr|
      invariant Scan(argsStr, i, current, parenCount, args, Flush) == ArgumentList(argsStr)
    {
      var ch := argsStr[i];
      if ch == '(' {
        parenCount := parenCount + 1;
        current := current + [ch];
      } else if ch == ')' {
        parenCount := parenCount - 1;
        current := current + [ch];
      } else if ch == ',' && parenCount == 0 {
        if Trim(current) != [] {
          args := args + [ParseExpression(Trim(current))];
        }
        current := "";
      } else {
        current := current + [ch];
      }
    }
    if Trim(current) != [] {
      args := args + [ParseExpression(Trim(current))];
    }
  }

  // ---------------------------------------------------------------------
  // Conditions and statements
  // ---------------------------------------------------------------------

  /** `parseConditionExpression`: an indexed access when the text has `[` and the indexed pattern matches. */
  function ParseConditionExpression(s: string, m: Matchers): Expr {
    if Contains(s, "[") && m.indexed(s).Some? then
      LValue(m.indexed(s).value.0, [ParseExpression(m.indexed(s).value.1)])
    else ParseExpression(s)
  }

  /** `parseTarget`: like a condition operand, but plain text is an identifier as it stands. */
  function ParseTarget(s: string, m: Matchers): Expr {
    if Contains(s, "[") && m.indexed(s).Some? then
      LValue(m.indexed(s).value.0, [ParseExpression(m.indexed(s).value.1)])
    else Identifier(s)
  }

  /** `parseCondition`: `left >= right` split at `>=`, keeping the first two pieces; otherwise one expression. */
  function ParseCondition(s: string, m: Matchers): Expr {
    if Contains(s, ">=") then
      var parts := Split(s, ">=");
      BinaryExpression(ParseConditionExpression(Trim(parts[0]), m), ">=", ParseExpression(Trim(parts[1])))
    else ParseExpression(s)
  }

  /** The operator `parseAssignmentStatement` picks: `+=` before `-=` before `=`. */
  function AssignmentOperator(line: string): string {
    if Contains(line, "+=") then "+=" else if Contains(line, "-=") then "-=" else "="
  }

  /** `parseAssignmentStatement`: nothing unless splitting at the operator gives exactly two pieces. */
  function ParseAssignment(line: string, m: Matchers): Option<Statement> {
    var op := AssignmentOperator(line);
    var parts := Split(line, op);
    if |parts| == 2 then
      Some(AssignmentStatement(ParseTarget(Trim(parts[0]), m), op, ParseExpression(Trim(parts[1]))))
    else None
  }

  /** `parseRequireStatement`: the message is a string literal with its quotes put back. */
  function ParseRequire(line: string, m: Matchers): Option<Statement> {
    match m.require(line)
    case Some((condition, message)) =>
      Some(RequireStatement(ParseCondition(condition, m), Some(Literal("\"" + message + "\"", "string"))))
    case None => None
  }

  /** `parseEmitStatement`: a blank argument string gives no arguments. */
  function ParseEmit(line: string, m: Matchers): Option<Statement> {
    match m.emit(line)
    case Some((event, argsStr)) =>
      Some(EmitStatement(event, if Trim(argsStr) != [] then ArgumentList(argsStr) else []))
    case None => None
  }

  /** `parseReturnStatement`: the first `return ` is removed and the rest is one expression. */
  function ParseReturn(line: string): Statement {
    ReturnStatement(Some(ParseExpression(Trim(ReplaceFirst(line, "return ", "")))))
  }

  /**
   * `parseStatement`: `require(` first, then any line with `=` in it (so
   * `+=` and `-=` too) is an assignment, then `emit `, then `return `;
   * anything else is no statement.
   */
  function ParseStatement(line: string, m: Matchers): Option<Statement> {
    var t := Trim(line);
    if StartsWith(t, "require(") then ParseRequire(t, m)
    else if Contains(t, "+=") || Contains(t, "-=") || Contains(t, "=") then ParseAssignment(t, m)
    else if StartsWith(t, "emit ") then ParseEmit(t, m)
    else if StartsWith(t, "return ") then Some(ParseReturn(t))
    else None
  }

  /** `parseEmitStatement`, reading the arguments with the scanning loop. */
  method ParseEmitStatement(line: string, m: Matchers) returns (s: Option<Statement>)
    ensures s == ParseEmit(line, m)
  {
    match m.emit(line)
    case Some((event, argsStr)) =>
      var args := [];
      if Trim(argsStr) != [] {
        args := ParseArgumentList(argsStr);
      }
      s := Some(EmitStatement(event, args));
    case None =>
      s := None;
  }

  /** `parseStatement`, with the emit case read by `ParseEmitStatement`. */
  method ParseStatementLine(line: string, m: Matchers) returns (s: Option<Statement>)
    ensures s == ParseStatement(line, m)
  {
    var t := Trim(line);
    if StartsWith(t, "require(") {
      s := ParseRequire(t, m);
    } else if Contains(t, "+=") || Contains(t, "-=") || Contains(t, "=") {
      s := ParseAssignment(t, m);
    } else if StartsWith(t, "emit ") {
      s := ParseEmitStatement(t, m);
    } else if StartsWith(t, "return ") {
      s := Some(ParseReturn(t));
    } else {
      s := None;
    }
  }
}
