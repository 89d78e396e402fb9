/**
 * The line cursor of the DSL parser (src/parser.js, class SmartDSLParser):
 * the input is cut into trimmed, non-empty, non-comment lines, and a cursor
 * `currentIndex` walks them, contract by contract, section by section.
 *
 * Each loop of the source is a method of the class, proved equal to a
 * function over the lines and a start index that returns what the loop
 * collects and where the cursor stops. The lemmas about the parser's shape
 * are stated over those functions (CursorProps).
 */
module Cursor {
  import opened Ast
  import opened Text
  import opened Parser

  /** The constructor's filter: a trimmed line is kept unless it is empty or a `//` comment. */
  predicate Kept(line: string) {
    line != [] && !StartsWith(line, "//")
  }

  /** The constructor's lines: every raw line trimmed, and the empty ones and comments dropped, in order. */
  function CleanLines(raw: seq<string>): (r: seq<string>)
    ensures |r| <= |raw|
    ensures forall k :: 0 <= k < |r| ==> Kept(r[k]) && IsTrimmed(r[k])
  {
    if raw == [] then []
    else (if Kept(Trim(raw[0])) then [Trim(raw[0])] else []) + CleanLines(raw[1..])
  }

  /** A line that ends a state section or a function body: a function, an event, a decorator or a contract. */
  predicate StartsSection(line: string) {
    StartsWith(line, "function ") || StartsWith(line, "event ") || StartsWith(line, "@") || StartsWith(line, "contract ")
  }

  /** `parseDecorator`: the name is the line without its first `@`, trimmed. */
  function DecoratorOf(line: string): Decorator {
    Decorator(Trim(ReplaceFirst(line, "@", "")))
  }

  /** How a state line is read: only a line with a colon is passed to `parseStateVariable`. */
  function VariableReader(): string -> Option<StateVariable> {
    line => if Contains(line, ":") then ParseStateVariable(line) else None
  }

  /**
   * The loop of `parseState` from line `i` on: every line that `read` turns
   * into a state variable is collected, until a section starts.
   */
  function StateFrom(lines: seq<string>, i: nat, read: string -> Option<StateVariable>, vars: seq<StateVariable>): (r: (seq<StateVariable>, nat))
    requires i <= |lines|
    ensures i <= r.1 <= |lines|
    ensures r.1 == |lines| || StartsSection(lines[r.1])
    ensures forall k :: i <= k < r.1 ==> !StartsSection(lines[k])
    decreases |lines| - i
  {
    if i == |lines| || StartsSection(lines[i]) then (vars, i)
    else
      var parsed := read(lines[i]);
      StateFrom(lines, i + 1, read, if parsed.Some? then vars + [parsed.value] else vars)
  }

  /** One line of the `parseState` loop that starts no section: it is read, and the loop goes on. */
  lemma StateFromStep(lines: seq<string>, i: nat, read: string -> Option<StateVariable>, vars: seq<StateVariable>)
    requires i < |lines| && !StartsSection(lines[i])
    ensures StateFrom(lines, i, read, vars)
      == StateFrom(lines, i + 1, read, if read(lines[i]).Some? then vars + [read(lines[i]).value] else vars)
  { }

  /** How a body line is read: `parseStatement` with the given patterns. */
  function StatementReader(m: Matchers): string -> Option<Statement> {
    line => ParseStatement(line, m)
  }

  /**
   * The loop of `parseFunctionBody` from line `i` on: every line that `read`
   * turns into a statement, until a section starts. The reader is a
   * parameter so that reasoning about the loop never looks inside a statement.
   * The source writes this loop out a second time (src/parser.js:241-262)
   * with the same stop test as `parseState`'s, so this has `StateFrom`'s shape.
   */
  function BodyFrom(lines: seq<string>, i: nat, read: string -> Option<Statement>, body: seq<Statement>): (r: (seq<Statement>, nat))
    requires i <= |lines|
    ensures i <= r.1 <= |lines|
    ensures r.1 == |lines| || StartsSection(lines[r.1])
    ensures forall k :: i <= k < r.1 ==> !StartsSection(lines[k])
    decreases |lines| - i
  {
    if i == |lines| || StartsSection(lines[i]) then (body, i)
    else
      var parsed := read(lines[i]);
      BodyFrom(lines, i + 1, read, if parsed.Some? then body + [parsed.value] else body)
  }

  /** A line that ends the backward search for a function's decorators. */
  predicate EndsDecoratorSearch(line: string) {
    line == "state:" || Contains(line, ":") || StartsWith(line, "function ") || StartsWith(line, "event ")
  }

  /**
   * The backward loop of `parseFunction` from line `j` down: `@` lines are
   * put in front of the decorators found so far, other lines are skipped,
   * and a line with a colon, a function or an event ends the search.
   */
  function DecoratorsBefore(lines: seq<string>, j: int, ds: seq<Decorator>): seq<Decorator>
    requires -1 <= j < |lines|
    decreases j + 1
  {
    if j < 0 then ds
    else if StartsWith(lines[j], "@") then DecoratorsBefore(lines, j - 1, [DecoratorOf(lines[j])] + ds)
    else if EndsDecoratorSearch(lines[j]) then ds
    else DecoratorsBefore(lines, j - 1, ds)
  }

  /** The return type the signature names; none when the group is missing or empty. */
  function ReturnTypeOf(sig: Signature): Option<Type> {
    if sig.returnType.Some? && sig.returnType.value != [] then Some(ScalarType(sig.returnType.value)) else None
  }

  /**
   * `parseFunction` at line `i`: the decorators above it, then the signature;
   * a line the signature pattern does not match gives no function and only
   * that line is consumed.
   */
  function FunctionAt(lines: seq<string>, i: nat, m: Matchers): (r: (Option<Function>, nat))
    requires i < |lines|
    ensures i < r.1 <= |lines|
    ensures r.0.None? ==> r.1 == i + 1
    ensures r.1 == i + 1 || r.1 == |lines| || StartsSection(lines[r.1])
    ensures forall k :: i < k < r.1 ==> !StartsSection(lines[k])
  {
    var decorators := DecoratorsBefore(lines, i - 1, []);
    match m.signature(lines[i])
    case None => (None, i + 1)
    case Some(sig) =>
      var body := BodyFrom(lines, i + 1, StatementReader(m), []);
      (Some(NewFunction(sig.name, Some(ParseParameters(sig.params)), ReturnTypeOf(sig), Some(decorators), Some(body.0))), body.1)
  }

  /** `parseEvent` at line `i`: one line is consumed whether or not the event pattern matches. */
  function EventAt(lines: seq<string>, i: nat, m: Matchers): (r: (Option<Event>, nat))
    requires i < |lines|
    ensures r.1 == i + 1
  {
    match m.event(lines[i])
    case Some((name, params)) => (Some(NewEvent(name, Some(ParseParameters(params)))), i + 1)
    case None => (None, i + 1)
  }

  /** What `parseContract` collects for one contract. */
  datatype Collected = Collected(
    decorators: seq<Decorator>,
    state: Option<StateDeclaration>,
    functions: seq<Function>,
    events: seq<Event>)

  const NothingCollected := Collected([], None, [], [])

  /**
   * One pass of the loop of `parseContract` at line `i`, in the source's
   * branch order: a decorator, the `state:` section, a function, an event,
   * anything else skipped. A second `state:` section replaces the first.
   * The `contract ` test that ends the loop is left to `ContractFrom`: a
   * contract line starts with none of the prefixes tested before it.
   */
  function ContractStep(lines: seq<string>, i: nat, m: Matchers, acc: Collected): (r: (Collected, nat))
    requires i < |lines|
    ensures i < r.1 <= |lines|
  {
    var line := lines[i];
    if StartsWith(line, "@") then
      (acc.(decorators := acc.decorators + [DecoratorOf(line)]), i + 1)
    else if line == "state:" then
      var s := StateFrom(lines, i + 1, VariableReader(), []);
      (acc.(state := Some(NewStateDeclaration(Some(s.0)))), s.1)
    else if StartsWith(line, "@") || StartsWith(line, "function ") then
      var f := FunctionAt(lines, i, m);
      (if f.0.Some? then acc.(functions := acc.functions + [f.0.value]) else acc, f.1)
    else if StartsWith(line, "event ") then
      var e := EventAt(lines, i, m);
      (if e.0.Some? then acc.(events := acc.events + [e.0.value]) else acc, e.1)
    else (acc, i + 1)
  }

  /** The loop of `parseContract` from line `i` on, up to the next contract line or the end. */
  function ContractFrom(lines: seq<string>, i: nat, m: Matchers, acc: Collected): (r: (Collected, nat))
    requires i <= |lines|
    ensures i <= r.1 <= |lines|
    ensures r.1 == |lines| || StartsWith(lines[r.1], "contract ")
    decreases |lines| - i
  {
    if i == |lines| || StartsWith(lines[i], "contract ") then (acc, i)
    else
      var next := ContractStep(lines, i, m, acc);
      ContractFrom(lines, next.1, m, next.0)
  }

  /** The name on a `contract` line: without the first `contract ` and the first `:`, trimmed. */
  function ContractName(line: string): string {
    Trim(ReplaceFirst(ReplaceFirst(line, "contract ", ""), ":", ""))
  }

  /** `parseContract` at line `i`. */
  function ContractAt(lines: seq<string>, i: nat, m: Matchers): (r: (Contract, nat))
    requires i < |lines|
    ensures i < r.1 <= |lines|
    ensures r.1 == |lines| || StartsWith(lines[r.1], "contract ")
  {
    var body := ContractFrom(lines, i + 1, m, NothingCollected);
    var c := body.0;
    (NewContract(ContractName(lines[i]), Some(c.decorators), c.state, Some(c.functions), Some(c.events)), body.1)
  }

  /** The loop of `parse` from line `i` on: a contract at every `contract ` line it reaches, other lines skipped. */
  function ContractsFrom(lines: seq<string>, i: nat, m: Matchers, contracts: seq<Contract>): seq<Contract>
    requires i <= |lines|
    decreases |lines| - i
  {
    if i == |lines| then contracts
    else if StartsWith(lines[i], "contract ") then
      var c := ContractAt(lines, i, m);
      ContractsFrom(lines, c.1, m, contracts + [c.0])
    else ContractsFrom(lines, i + 1, m, contracts)
  }

  /** The program a fresh parser reads from its lines. */
  function ParseLines(lines: seq<string>, m: Matchers): Program {
    NewProgram(Some(ContractsFrom(lines, 0, m, [])))
  }

  class SmartDslParser {
    const input: string
    const lines: seq<string>
    const matchers: Matchers
    var currentIndex: nat

    constructor(input: string, matchers: Matchers)
      ensures this.input == input && this.matchers == matchers
      ensures lines == CleanLines(Split(input, "\n")) && currentIndex == 0
    {
      this.input := input;
      this.matchers := matchers;
      lines := CleanLines(Split(input, "\n"));
      currentIndex := 0;
    }

    /** `parse`: reads contracts from the cursor to the last line. */
    method Parse() returns (p: Program)
      requires currentIndex <= |lines|
      modifies this
      ensures p == NewProgram(Some(ContractsFrom(lines, old(currentIndex), matchers, [])))
      ensures currentIndex == |lines|
    {
      var contracts: seq<Contract> := [];
      while currentIndex < |lines|
        invariant currentIndex <= |lines|
        invariant ContractsFrom(lines, currentIndex, matchers, contracts) == ContractsFrom(lines, old(currentIndex), matchers, [])
        decreases |lines| - currentIndex
      {
        if StartsWith(lines[currentIndex], "contract ") {
          var c := ParseContract();
          contracts := contracts + [c];
        } else {
          currentIndex := currentIndex + 1;
        }
      }
      p := NewProgram(Some(contracts));
    }

    /** `parseContract`: the contract line, then its body up to the next contract line or the end. */
    method ParseContract() returns (c: Contract)
      requires currentIndex < |lines|
      modifies this
      ensures (c, currentIndex) == ContractAt(lines, old(currentIndex), matchers)
    {
      var contractName := ContractName(lines[currentIndex]);
      currentIndex := currentIndex + 1;
      var collected := ParseMembers();
      c := NewContract(contractName, Some(collected.decorators), collected.state, Some(collected.functions), Some(collected.events));
    }

    /** The loop of `parseContract`: members until the next contract line or the end. */
    method ParseMembers() returns (collected: Collected)
      requires currentIndex <= |lines|
      modifies this
      ensures (collected, currentIndex) == ContractFrom(lines, old(currentIndex), matchers, NothingCollected)
    {
      collected := NothingCollected;
      while currentIndex < |lines|
        invariant currentIndex <= |lines|
        invariant ContractFrom(lines, currentIndex, matchers, collected) == ContractFrom(lines, old(currentIndex), matchers, NothingCollected)
        decreases |lines| - currentIndex
      {
        if StartsWith(lines[currentIndex], "contract ") {
          break;
        }
        collected := ParseMember(collected);
      }
    }

    /** One pass of the loop of `parseContract`, on a line that is no contract line. */
    method ParseMember(acc: Collected) returns (next: Collected)
      requires currentIndex < |lines|
      modifies this
      ensures (next, currentIndex) == ContractStep(lines, old(currentIndex), matchers, acc)
    {
      next := acc;
      var currentLine := lines[currentIndex];
      if StartsWith(currentLine, "@") {
        var decorator := ParseDecorator();
        next := next.(decorators := next.decorators + [decorator]);
      } else if currentLine == "state:" {
        var s := ParseState();
        next := next.(state := Some(s));
      } else if StartsWith(currentLine, "@") || StartsWith(currentLine, "function ") {
        var func := ParseFunction();
        if func.Some? {
          next := next.(functions := next.functions + [func.value]);
        }
      } else if StartsWith(currentLine, "event ") {
        var event := ParseEvent();
        if event.Some? {
          next := next.(events := next.events + [event.value]);
        }
      } else {
        currentIndex := currentIndex + 1;
      }
    }

    /** `parseDecorator`: one line. */
    method ParseDecorator() returns (d: Decorator)
      requires currentIndex < |lines|
      modifies this
      ensures d == DecoratorOf(lines[old(currentIndex)]) && currentIndex == old(currentIndex) + 1
    {
      d := DecoratorOf(lines[currentIndex]);
      currentIndex := currentIndex + 1;
    }

    /** `parseState`: skips the `state:` line, then reads variables until a section starts. */
    method ParseState() returns (s: StateDeclaration)
      requires currentIndex < |lines|
      modifies this
      ensures var r := StateFrom(lines, old(currentIndex) + 1, VariableReader(), []);
        s == NewStateDeclaration(Some(r.0)) && currentIndex == r.1
    {
      currentIndex := currentIndex + 1;
      var variables: seq<StateVariable> := [];
      while currentIndex < |lines|
        invariant currentIndex <= |lines|
        invariant StateFrom(lines, currentIndex, VariableReader(), variables) == StateFrom(lines, old(currentIndex) + 1, VariableReader(), [])
        decreases |lines| - currentIndex
      {
        var line := lines[currentIndex];
        if StartsSection(line) {
          break;
        }
        var variable := ReadStateLine(line);
        StateFromStep(lines, currentIndex, VariableReader(), variables);
        if variable.Some? {
          variables := variables + [variable.value];
        }
        currentIndex := currentIndex + 1;
      }
      s := NewStateDeclaration(Some(variables));
    }

    /** The test inside the loop of `parseState`: only a line with a colon is parsed as a variable. */
    static method ReadStateLine(line: string) returns (variable: Option<StateVariable>)
      ensures variable == VariableReader()(line)
    {
      variable := None;
      if Contains(line, ":") {
        variable := ParseStateVariable(line);
      }
    }

    /** `parseFunction`: the backward search for decorators, the signature, then the body. */
    method ParseFunction() returns (f: Option<Function>)
      requires currentIndex < |lines|
      modifies this
      ensures (f, currentIndex) == FunctionAt(lines, old(currentIndex), matchers)
    {
      var checkIndex: int := currentIndex - 1;
      var functionDecorators: seq<Decorator> := [];
      while checkIndex >= 0
        invariant -1 <= checkIndex < currentIndex
        invariant DecoratorsBefore(lines, checkIndex, functionDecorators) == DecoratorsBefore(lines, currentIndex - 1, [])
        decreases checkIndex
      {
        var prevLine := lines[checkIndex];
        if StartsWith(prevLine, "@") {
          functionDecorators := [DecoratorOf(prevLine)] + functionDecorators;
          checkIndex := checkIndex - 1;
        } else if EndsDecoratorSearch(prevLine) {
          break;
        } else {
          checkIndex := checkIndex - 1;
        }
      }
      var funcLine := lines[currentIndex];
      currentIndex := currentIndex + 1;
      match matchers.signature(funcLine)
      case None =>
        f := None;
      case Some(sig) =>
        var parameters := ParseParameters(sig.params);
        var body := ParseFunctionBody();
        f := Some(NewFunction(sig.name, Some(parameters), ReturnTypeOf(sig), Some(functionDecorators), Some(body)));
    }

    /** `parseFunctionBody`: statements until a section starts; lines that are no statement are skipped. */
    method ParseFunctionBody() returns (body: seq<Statement>)
      requires currentIndex <= |lines|
      modifies this
      ensures (body, currentIndex) == BodyFrom(lines, old(currentIndex), StatementReader(matchers), [])
    {
      body := [];
      while currentIndex < |lines|
        invariant currentIndex <= |lines|
        invariant BodyFrom(lines, currentIndex, StatementReader(matchers), body) == BodyFrom(lines, old(currentIndex), StatementReader(matchers), [])
        decreases |lines| - currentIndex
      {
        var line := lines[currentIndex];
        if StartsSection(line) {
          break;
        }
        var statement := ParseStatementLine(line, matchers);
        assert statement == StatementReader(matchers)(line);
        if statement.Some? {
          body := body + [statement.value];
        }
        currentIndex := currentIndex + 1;
      }
    }

    /** `parseEvent`: one line. */
    method ParseEvent() returns (e: Option<Event>)
      requires currentIndex < |lines|
      modifies this
      ensures (e, currentIndex) == EventAt(lines, old(currentIndex), matchers)
    {
      var line := lines[currentIndex];
      currentIndex := currentIndex + 1;
      match matchers.event(line)
      case Some((name, params)) =>
        e := Some(NewEvent(name, Some(ParseParameters(params))));
      case None =>
        e := None;
    }
  }
}
