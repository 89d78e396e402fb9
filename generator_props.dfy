/**
 * What the generated Solidity text promises (src/SolidityGenerator.js): the
 * fixed file header, the pragma version after the SafeMath transformer, the
 * statements of a function one per line, the placeholder rule of modifiers,
 * the constructor rule, the order of modifier names in a function header and
 * the text of statements the generator does not know.
 */
module GeneratorProps {
  import opened Ast
  import opened Text
  import opened Insertions
  import opened Generator
  import Pipeline
  import PipelineProps
  import OnlyOwner
  import ReentrancyGuard
  import SafeMath

  const ConstructorHeader := "    constructor() {"

  /** Number of lines equal to `line`. */
  function Occurrences(lines: seq<string>, line: string): nat {
    if lines == [] then 0 else (if lines[0] == line then 1 else 0) + Occurrences(lines[1..], line)
  }

  lemma {:induction false} OccurrencesAppend(xs: seq<string>, ys: seq<string>, line: string)
    ensures Occurrences(xs + ys, line) == Occurrences(xs, line) + Occurrences(ys, line)
  {
    if xs == [] {
      assert xs + ys == ys;
    } else {
      assert (xs + ys)[1..] == xs[1..] + ys;
      OccurrencesAppend(xs[1..], ys, line);
    }
  }

  lemma {:induction false} OccurrencesAbsent(xs: seq<string>, line: string)
    requires forall i :: 0 <= i < |xs| ==> xs[i] != line
    ensures Occurrences(xs, line) == 0
  {
    if xs != [] {
      OccurrencesAbsent(xs[1..], line);
    }
  }

  /** No rendered element is `line`, so the rendering has no line `line`. */
  lemma MapLinesAbsent<T>(xs: seq<T>, f: T -> string, line: string)
    requires forall i :: 0 <= i < |xs| ==> f(xs[i]) != line
    ensures Occurrences(MapLines(xs, f), line) == 0
  {
    forall i | 0 <= i < |xs| ensures MapLines(xs, f)[i] != line {
      MapLinesAt(xs, f, i);
    }
    OccurrencesAbsent(MapLines(xs, f), line);
  }

  /** The rendering of a non-empty list starts with the rendering of its first element. */
  lemma {:induction false} MapLinesCons<T>(xs: seq<T>, f: T -> string)
    requires |xs| >= 1
    ensures MapLines(xs, f) == [f(xs[0])] + MapLines(xs[1..], f)
    decreases |xs|
  {
    if |xs| > 1 {
      var init := xs[..|xs| - 1];
      MapLinesCons(init, f);
      assert init[1..] == xs[1..][..|xs| - 2];
    }
  }

  /** A joined list of lines starts with its first line. */
  lemma JoinStartsWith(xs: seq<string>, sep: string)
    requires |xs| >= 1
    ensures StartsWith(Join(xs, sep), xs[0])
  {
    if |xs| > 1 {
      JoinCons(xs[0], xs[1..], sep);
      assert xs == [xs[0]] + xs[1..];
    }
  }

  // ---------------------------------------------------------------------
  // The file header
  // ---------------------------------------------------------------------

  lemma StartsWithAppend(a: string, b: string)
    ensures StartsWith(a + b, a)
  {
    assert (a + b)[..|a|] == a;
  }

  lemma StartsWithPair(a: string, b: string, tail: string)
    ensures StartsWith(a + (b + tail), a + b)
  {
    assert (a + (b + tail))[..|a + b|] == a + b;
  }

  /** With at least three lines, the first two, each followed by a newline, start the joined text. */
  lemma JoinedHeader(lines: seq<string>)
    requires |lines| >= 3
    ensures StartsWith(Join(lines, "\n"), (lines[0] + "\n") + (lines[1] + "\n"))
  {
    var tail := Join(lines[2..], "\n");
    assert lines[1..][1..] == lines[2..];
    assert Join(lines[1..], "\n") == (lines[1] + "\n") + tail;
    StartsWithPair(lines[0] + "\n", lines[1] + "\n", tail);
  }

  /** Element `i` is rendered right after the fixed lines. */
  lemma MapLinesAfter<T>(head: seq<string>, xs: seq<T>, f: T -> string, i: nat)
    requires i < |xs|
    ensures (head + MapLines(xs, f))[|head| + i] == f(xs[i])
  {
    MapLinesAt(xs, f, i);
  }

  /** The output starts with the license line, then `pragma solidity V;`, each followed by a newline. */
  lemma ProgramHeader(p: Program)
    ensures StartsWith(ProgramText(p), (License + "\n") + ("pragma solidity " + PragmaVersion(p.metadata) + ";" + "\n"))
  {
    var lines := ProgramLines(p);
    JoinedHeader(lines);
    assert lines[0] == License;
    assert lines[1] == "pragma solidity " + PragmaVersion(p.metadata) + ";";
  }

  /** After the three header lines come the contract blocks, one per contract, in order. */
  lemma ProgramBlocks(p: Program)
    ensures |ProgramLines(p)| == 3 + |p.contracts|
    ensures forall i :: 0 <= i < |p.contracts| ==> ProgramLines(p)[3 + i] == ContractText(p.contracts[i])
  {
    var head := [License, "pragma solidity " + PragmaVersion(p.metadata) + ";", ""];
    forall i | 0 <= i < |p.contracts| ensures ProgramLines(p)[3 + i] == ContractText(p.contracts[i]) {
      MapLinesAfter(head, p.contracts, ContractText, i);
    }
  }

  /**
   * The pragma names the version the SafeMath transformer recorded when some
   * contract asks for `safe_math`; otherwise the pipeline leaves it as it was.
   */
  lemma SafeMathPragma(p: Program)
    ensures PipelineProps.AnySafeMath(p.contracts) ==> PragmaVersion(Pipeline.Transformed(p).metadata) == "^0.8.0"
    ensures !PipelineProps.AnySafeMath(p.contracts) ==> PragmaVersion(Pipeline.Transformed(p).metadata) == PragmaVersion(p.metadata)
  {
    PipelineProps.SafeMathVersion(p);
  }

  /** Only the `solidityVersion` entry of the metadata matters to the pragma; a missing entry gives the default. */
  lemma PragmaReadsOnlyVersion(m1: Metadata, m2: Metadata)
    requires "solidityVersion" in m1 <==> "solidityVersion" in m2
    requires "solidityVersion" in m1 ==> m1["solidityVersion"] == m2["solidityVersion"]
    ensures PragmaVersion(Some(m1)) == PragmaVersion(Some(m2))
    ensures "solidityVersion" !in m1 ==> PragmaVersion(Some(m1)) == DefaultVersion == PragmaVersion(None)
  {
  }

  // ---------------------------------------------------------------------
  // Statements and functions
  // ---------------------------------------------------------------------

  /** The four known statement kinds end with `;`; anything else degrades to a comment, which does not. */
  lemma StatementTextEnding(s: Statement)
    ensures EndsWith(StatementText(s), ";") <==> Supported(s)
    ensures !Supported(s) ==> StatementText(s) == UnsupportedStatement(StatementKind(s))
    ensures |StatementText(s)| >= 3
  {
    var t := StatementText(s);
    if !Supported(s) {
      var kind := StatementKind(s);
      assert t == "/* Unsupported statement type: " + kind + " */";
      assert t[|t| - 1] == '/';
    }
  }

  /**
   * A node of an unknown kind degrades to a comment: on one line when the
   * kind's name has no line break, and with that name in it.
   */
  lemma UnknownKindsOneLine(kind: string)
    requires '\n' !in kind
    ensures ExpressionText(UnknownExpression(kind)) == UnsupportedExpression(kind)
    ensures StatementText(UnknownStatement(kind)) == UnsupportedStatement(kind)
    ensures '\n' !in UnsupportedExpression(kind) && '\n' !in UnsupportedStatement(kind)
    ensures var e := UnsupportedExpression(kind); e[32..32 + |kind|] == kind
    ensures var s := UnsupportedStatement(kind); s[31..31 + |kind|] == kind
  {
  }

  /** A function's lines: header, one line per body statement in order, closing brace, empty line. */
  lemma FunctionLayout(f: Function)
    ensures |FunctionLines(f)| == |f.body| + 3
    ensures FunctionLines(f)[0] == FunctionHeader(f)
    ensures forall i :: 0 <= i < |f.body| ==> FunctionLines(f)[1 + i] == "        " + StatementText(f.body[i])
    ensures FunctionLines(f)[|f.body| + 1] == "    }"
  {
    forall i | 0 <= i < |f.body| ensures FunctionLines(f)[1 + i] == "        " + StatementText(f.body[i]) {
      MapLinesAt(f.body, BodyLine, i);
    }
  }

  /** Two modifier names render as a space, the first, a space and the second. */
  lemma TwoNamesSuffix(first: string, second: string)
    ensures ModifiersSuffix(Some([first, second])) == " " + first + " " + second
  {
    JoinCons(first, [second], " ");
  }

  /** The transformers change only the modifier names of the function they run for. */
  lemma TransformedFunctionKeepsSignature(c: Contract, k: nat)
    requires k < |c.functions|
    ensures var g := Pipeline.TransformFunction(c, k).functions[k];
      g == c.functions[k].(modifiers := g.modifiers)
  {
    var decorators := c.functions[k].decorators;
    var guarded := if HasDecorator(decorators, Pipeline.ReentrancyGuardDecorator) then ReentrancyGuard.Apply(c, k) else c;
    assert guarded.functions[k] == c.functions[k].(modifiers := guarded.functions[k].modifiers);
  }

  /**
   * A function with both security decorators and no modifier names yet is
   * rendered with ` public`, its guard, then `onlyOwner`.
   */
  lemma GuardedOwnedHeader(c: Contract, k: nat)
    requires k < |c.functions|
    requires HasDecorator(c.functions[k].decorators, Pipeline.ReentrancyGuardDecorator)
    requires HasDecorator(c.functions[k].decorators, Pipeline.OnlyOwnerDecorator)
    requires c.functions[k].modifiers.GetOr([]) == []
    ensures var f := c.functions[k];
      FunctionHeader(Pipeline.TransformFunction(c, k).functions[k])
      == "    function " + f.name + "(" + ParametersText(f.parameters) + ") public"
         + (" " + ReentrancyGuard.GuardName(f.name) + " " + OnlyOwner.ModifierName) + ReturnsSuffix(f.returnType) + " {"
  {
    var f := c.functions[k];
    var g := Pipeline.TransformFunction(c, k).functions[k];
    var guard := ReentrancyGuard.GuardName(f.name);
    PipelineProps.BothDecoratorsOrder(c, k);
    assert [] + [guard, OnlyOwner.ModifierName] == [guard, OnlyOwner.ModifierName];
    assert g.modifiers == Some([guard, OnlyOwner.ModifierName]);
    TransformedFunctionKeepsSignature(c, k);
    assert g == f.(modifiers := Some([guard, OnlyOwner.ModifierName]));
    HeaderWithModifiers(f, Some([guard, OnlyOwner.ModifierName]));
    TwoNamesSuffix(guard, OnlyOwner.ModifierName);
  }

  /** The header of a function with other modifier names differs only in the suffix after ` public`. */
  lemma HeaderWithModifiers(f: Function, modifiers: Option<seq<string>>)
    ensures FunctionHeader(f.(modifiers := modifiers))
      == "    function " + f.name + "(" + ParametersText(f.parameters) + ") public"
         + ModifiersSuffix(modifiers) + ReturnsSuffix(f.returnType) + " {"
  { }

  /** The modifier names of a header can be read back by splitting at spaces, when no name holds a space. */
  lemma ModifierNamesReadBack(names: seq<string>)
    requires |names| >= 1
    requires forall k :: 0 <= k < |names| ==> ' ' !in names[k]
    ensures var suffix := ModifiersSuffix(Some(names));
      |suffix| >= 1 && suffix[0] == ' ' && Split(suffix[1..], " ") == names
  {
    var suffix := ModifiersSuffix(Some(names));
    assert suffix[1..] == Join(names, [' ']);
    SplitJoin(names, ' ');
  }

  // ---------------------------------------------------------------------
  // Modifiers
  // ---------------------------------------------------------------------

  /** A body line is the placeholder line exactly for a placeholder statement. */
  lemma PlaceholderLine(s: Statement)
    ensures ModifierBodyLine(s) == Placeholder <==> s.PlaceholderStatement?
  {
    if !s.PlaceholderStatement? {
      StatementTextEnding(s);
      assert |ModifierBodyLine(s)| >= 11;
    }
  }

  lemma {:induction false} BodyPlaceholders(body: seq<Statement>)
    ensures Occurrences(MapLines(body, ModifierBodyLine), Placeholder) == CountPlaceholders(body)
    decreases |body|
  {
    if body != [] {
      MapLinesCons(body, ModifierBodyLine);
      PlaceholderLine(body[0]);
      BodyPlaceholders(body[1..]);
      OccurrencesAppend([ModifierBodyLine(body[0])], MapLines(body[1..], ModifierBodyLine), Placeholder);
    }
  }

  /** A modifier renders one `_;` line per placeholder statement, or a single one when it has no body. */
  lemma ModifierPlaceholders(m: Modifier)
    ensures Occurrences(ModifierLines(m), Placeholder)
            == if m.body.Some? then CountPlaceholders(m.body.value) else 1
  {
    var header := "    modifier " + m.name + "(" + ParametersText(m.parameters) + ") {";
    assert header[4] == 'm';
    var middle := if m.body.Some? then MapLines(m.body.value, ModifierBodyLine) else [Placeholder];
    assert ModifierLines(m) == [header] + middle + ["    }"];
    OccurrencesAppend([header], middle, Placeholder);
    OccurrencesAppend([header] + middle, ["    }"], Placeholder);
    if m.body.Some? {
      BodyPlaceholders(m.body.value);
    }
  }

  /** The guard and the `onlyOwner` modifier the transformers add each render exactly one `_;` line. */
  lemma SecurityModifiersOnePlaceholder(functionName: string)
    ensures Occurrences(ModifierLines(ReentrancyGuard.GuardModifier(functionName)), Placeholder) == 1
    ensures Occurrences(ModifierLines(OnlyOwner.OwnerModifier()), Placeholder) == 1
  {
    ModifierPlaceholders(ReentrancyGuard.GuardModifier(functionName));
    ModifierPlaceholders(OnlyOwner.OwnerModifier());
  }

  // ---------------------------------------------------------------------
  // The constructor
  // ---------------------------------------------------------------------

  lemma SectionOccurrences(title: string, items: seq<string>, line: string)
    requires line != "" && line != SectionComment(title)
    ensures Occurrences(Section(title, items), line) == Occurrences(items, line)
  {
    if items != [] {
      OccurrencesAppend(["", SectionComment(title)], items, line);
    }
  }

  lemma StateLineNotConstructor(v: StateVariable)
    ensures StateLine(v) != ConstructorHeader
  {
    var t := StateLine(v);
    assert t[|t| - 1] == ';';
  }

  lemma EventLineNotConstructor(e: Event)
    ensures EventLine(e) != ConstructorHeader
  {
    var t := EventLine(e);
    assert t[|t| - 1] == ';';
  }

  lemma ModifierTextNotConstructor(m: Modifier)
    ensures ModifierText(m) != ConstructorHeader
  {
    JoinStartsWith(ModifierLines(m), "\n");
    assert ModifierText(m)[4] == ModifierLines(m)[0][4] == 'm';
  }

  lemma FunctionTextNotConstructor(f: Function)
    ensures FunctionText(f) != ConstructorHeader
  {
    JoinStartsWith(FunctionLines(f), "\n");
    assert FunctionText(f)[4] == FunctionHeader(f)[4] == 'f';
  }

  /** No line of the state, event, modifier or function sections is the constructor header. */
  lemma ItemsAreNotConstructor(c: Contract)
    ensures Occurrences(StateLines(c), ConstructorHeader) == 0
    ensures Occurrences(EventLines(c), ConstructorHeader) == 0
    ensures Occurrences(ModifierTexts(c), ConstructorHeader) == 0
    ensures Occurrences(FunctionTexts(c), ConstructorHeader) == 0
  {
    forall i | 0 <= i < |Variables(c)| ensures StateLine(Variables(c)[i]) != ConstructorHeader {
      StateLineNotConstructor(Variables(c)[i]);
    }
    MapLinesAbsent(Variables(c), StateLine, ConstructorHeader);
    forall i | 0 <= i < |c.events| ensures EventLine(c.events[i]) != ConstructorHeader {
      EventLineNotConstructor(c.events[i]);
    }
    MapLinesAbsent(c.events, EventLine, ConstructorHeader);
    var ms := c.modifiers.GetOr([]);
    forall i | 0 <= i < |ms| ensures ModifierText(ms[i]) != ConstructorHeader {
      ModifierTextNotConstructor(ms[i]);
    }
    MapLinesAbsent(ms, ModifierText, ConstructorHeader);
    forall i | 0 <= i < |c.functions| ensures FunctionText(c.functions[i]) != ConstructorHeader {
      FunctionTextNotConstructor(c.functions[i]);
    }
    MapLinesAbsent(c.functions, FunctionText, ConstructorHeader);
  }

  /**
   * The constructor is emitted exactly once when the owner rule holds, and
   * not at all otherwise. `ContractLines` holds each modifier and function
   * block as one element joined from its lines. No line of such a block is
   * the header: its first line starts with `modifier` or `function` and the
   * others are indented by eight spaces. So counting elements counts lines.
   */
  lemma ConstructorOnce(c: Contract)
    ensures Occurrences(ContractLines(c), ConstructorHeader) == if NeedsConstructor(c) then 1 else 0
  {
    var h := ConstructorHeader;
    var decl := ["contract " + c.name + " {"];
    var s := Section("State variables", StateLines(c));
    var e := Section("Events", EventLines(c));
    var m := Section("Modifiers", ModifierTexts(c));
    var k := Section("Constructor", if NeedsConstructor(c) then ConstructorLines else []);
    var f := Section("Functions", FunctionTexts(c));
    assert ContractLines(c) == decl + s + e + m + k + f + ["}"];
    OccurrencesAppend(decl, s, h);
    OccurrencesAppend(decl + s, e, h);
    OccurrencesAppend(decl + s + e, m, h);
    OccurrencesAppend(decl + s + e + m, k, h);
    OccurrencesAppend(decl + s + e + m + k, f, h);
    OccurrencesAppend(decl + s + e + m + k + f, ["}"], h);
    assert decl[0][0] == 'c';
    ItemsAreNotConstructor(c);
    SectionOccurrences("State variables", StateLines(c), h);
    SectionOccurrences("Events", EventLines(c), h);
    SectionOccurrences("Modifiers", ModifierTexts(c), h);
    SectionOccurrences("Constructor", if NeedsConstructor(c) then ConstructorLines else [], h);
    SectionOccurrences("Functions", FunctionTexts(c), h);
  }

  /** The synthesized owner is rendered without its `msg.sender` initializer. */
  lemma OwnerStateLine()
    ensures StateLine(OnlyOwner.OwnerVariable()) == "    address owner;"
  {
    assert IsSenderIdentifier(OnlyOwner.OwnerVariable().initialValue.value);
  }

  /**
   * The `msg.sender` rule of `generateStateVariable` is not limited to
   * `owner`: any variable initialised to the identifier `msg.sender` is
   * declared without an initializer, and only an `owner` gets a constructor.
   */
  lemma SenderInitializerDroppedForAnyName(name: string, ty: Type, c: Contract)
    requires name != "owner"
    requires Variables(c) == [StateVariable(name, ty, Some(Identifier("msg.sender")))]
    ensures StateLines(c) == ["    " + TypeText(Some(ty)) + " " + name + ";"]
    ensures !NeedsConstructor(c)
  {
    var v := Variables(c)[0];
    MapLinesAt(Variables(c), StateLine, 0);
    assert StateLine(v) == "    " + TypeText(Some(ty)) + " " + name + ";";
    assert StateLines(c) == [StateLine(v)];
  }

  /**
   * The constructor rule reads the `name` of any initializer: an `owner`
   * initialised to a call named `msg.sender` keeps its inline initializer and
   * still gets the constructor.
   */
  lemma CalledSenderKeepsInitializer(c: Contract)
    requires Variables(c) == [StateVariable("owner", ScalarType("address"), Some(FunctionCall("msg.sender", [])))]
    ensures StateLines(c) == ["    " + ("address owner" + " = " + "msg.sender()" + ";")]
    ensures NeedsConstructor(c)
  {
    var v := Variables(c)[0];
    MapLinesAt(Variables(c), StateLine, 0);
    assert ExpressionTexts([]) == [];
    assert ExpressionText(FunctionCall("msg.sender", [])) == "msg.sender" + "(" + "" + ")";
    assert "msg.sender" + "(" + "" + ")" == "msg.sender()";
    assert TypeText(Some(v.varType)) + " " + v.name == "address owner";
    assert StateLines(c) == [StateLine(v)];
    assert v.name == "owner";
  }

  /** Applying `onlyOwner` to a contract with no `owner` variable appends exactly the synthesized one. */
  lemma OwnerAppended(c: Contract, k: nat)
    requires k < |c.functions|
    requires !HasVariable(Variables(c), OnlyOwner.OwnerVarName)
    ensures Variables(OnlyOwner.Apply(c, k)) == Variables(c) + [OnlyOwner.OwnerVariable()]
  {
  }

  /**
   * After `onlyOwner` is applied to a contract with no `owner` variable, the
   * new last state line is `address owner;` and the constructor that sets
   * the owner is emitted once.
   */
  lemma OwnerRenderedWithConstructor(c: Contract, k: nat)
    requires k < |c.functions|
    requires !HasVariable(Variables(c), OnlyOwner.OwnerVarName)
    ensures var r := OnlyOwner.Apply(c, k);
      && |StateLines(r)| == |Variables(c)| + 1
      && StateLines(r)[|Variables(c)|] == "    address owner;"
      && NeedsConstructor(r)
      && Occurrences(ContractLines(r), ConstructorHeader) == 1
  {
    var r := OnlyOwner.Apply(c, k);
    OwnerAppended(c, k);
    var vs := Variables(r);
    var i := |Variables(c)|;
    assert vs[i] == OnlyOwner.OwnerVariable();
    MapLinesAt(vs, StateLine, i);
    OwnerStateLine();
    assert NeedsConstructor(r) by {
      assert vs[i].name == "owner" && NameOf(vs[i].initialValue.value) == Some("msg.sender");
    }
    ConstructorOnce(r);
  }
}
