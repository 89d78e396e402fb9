/**
 * What the DSL parser's string helpers promise (src/parser.js), and how they
 * fit the Solidity generator: the text the generator prints for a parsed
 * expression, type, condition or assignment is the text that was parsed.
 */
module ParserProps {
  import opened Ast
  import opened Text
  import opened Parser
  import opened Generator
  import GeneratorProps

  // ---------------------------------------------------------------------
  // Expressions
  // ---------------------------------------------------------------------

  /**
   * `parseExpression` keeps the trimmed text: all digits is a number, `true`
   * and `false` are booleans, quoted text is a string, `address(...)` is an
   * address, and text outside the four literal shapes is an identifier.
   */
  lemma ParseExpressionKinds(s: string)
    ensures var t := Trim(s); var e := ParseExpression(s);
      && (e.Literal? || e.Identifier?)
      && (e.Literal? ==> e.value == t)
      && (e.Identifier? ==> e.name == t)
      && (e == Literal(t, "number") <==> IsDigits(t))
      && ((t == "true" || t == "false") ==> e == Literal(t, "boolean"))
      && (StartsWith(t, "\"") && EndsWith(t, "\"") ==> e == Literal(t, "string"))
      && (StartsWith(t, "address(") && EndsWith(t, ")") ==> e == Literal(t, "address"))
      && (e.Identifier? <==>
            !IsDigits(t) && t != "true" && t != "false"
            && !(StartsWith(t, "\"") && EndsWith(t, "\""))
            && !(StartsWith(t, "address(") && EndsWith(t, ")")))
  {
    var t := Trim(s);
    if t == "true" || t == "false" {
      assert !IsDigits(t) by { assert !IsDigit(t[0]); }
    }
  }

  /** The generator prints a parsed expression as the trimmed text it came from, and reading that back changes nothing. */
  lemma ExpressionRoundTrip(s: string)
    ensures ExpressionText(ParseExpression(s)) == Trim(s)
    ensures ParseExpression(ExpressionText(ParseExpression(s))) == ParseExpression(s)
  {
    ExpressionTextOfParse(s);
    ParseOfTrim(s);
  }

  lemma ExpressionTextOfParse(s: string)
    ensures ExpressionText(ParseExpression(s)) == Trim(s)
  {
    ParseExpressionKinds(s);
    LeafText(ParseExpression(s));
  }

  lemma LeafText(e: Expr)
    requires e.Literal? || e.Identifier?
    ensures ExpressionText(e) == if e.Literal? then e.value else e.name
  {
  }

  lemma ParseOfTrim(s: string)
    ensures ParseExpression(Trim(s)) == ParseExpression(s)
  {
    var t := Trim(s);
    TrimIdempotent(s);
    assert Trim(t) == t;
  }

  // ---------------------------------------------------------------------
  // Types
  // ---------------------------------------------------------------------

  /** A type the DSL can spell by its own name: trimmed, and neither a mapping nor an array. */
  predicate ScalarDslType(t: Type) {
    t.keyType.None? && t.valueType.None? && IsTrimmed(t.name)
    && t.name != "mapping" && t.name != "array" && !StartsWith(t.name, "mapping(")
  }

  /** A type the DSL can write: a scalar, or a mapping from a scalar without `=>` in its name to such a type. */
  predicate DslType(t: Type)
    decreases t
  {
    if t.name == "mapping" then
      t.keyType.Some? && t.valueType.Some?
      && ScalarDslType(t.keyType.value) && !Contains(t.keyType.value.name, "=>")
      && DslType(t.valueType.value)
    else ScalarDslType(t)
  }

  lemma DslTypeTextTrimmed(t: Type)
    requires DslType(t)
    ensures IsTrimmed(TypeText(Some(t)))
  {
    if t.name == "mapping" {
      var s := TypeText(Some(t));
      assert s[0] == 'm' && s[|s| - 1] == ')';
    }
  }

  /** `=>` does not start where the next two characters are not `=` and `>`. */
  lemma NoArrowAt(s: string, j: int)
    requires 0 <= j && j + 2 <= |s|
    requires s[j] != '=' || s[j + 1] != '>'
    ensures !OccursAt(s, "=>", j)
  {
    var w := s[j..j + 2];
    assert w[0] == s[j] && w[1] == s[j + 1];
  }

  /** Inside `mapping(K => V)` the first `=>` is the one after `K`, when `K` has none. */
  lemma ArrowAfterKey(key: string, value: string)
    requires !Contains(key, "=>")
    ensures IndexOf(key + " => " + value, "=>") == |key| + 1
  {
    var content := key + " => " + value;
    assert content[|key|..|key| + 4] == " => ";
    assert content[|key| + 1..|key| + 3] == "=>";
    assert OccursAt(content, "=>", |key| + 1);
    forall j | 0 <= j < |key| + 1 ensures !OccursAt(content, "=>", j) {
      if j + 2 <= |key| {
        assert content[j..j + 2] == key[j..j + 2];
        assert !OccursAt(key, "=>", j);
      } else if j == |key| - 1 {
        assert content[j + 1] == ' ';
        NoArrowAt(content, j);
      } else {
        assert content[j] == ' ';
        NoArrowAt(content, j);
      }
    }
    FirstOccurrence(content, "=>", |key| + 1);
  }

  /** `mapping(K => V)` is trimmed, starts as a mapping and holds `K => V` between its parentheses. */
  lemma MappingText(key: string, value: string)
    ensures var s := "mapping(" + key + " => " + value + ")";
      && IsTrimmed(s) && StartsWith(s, "mapping(")
      && Substring(s, 8, |s| - 1) == key + " => " + value
  {
    var s := "mapping(" + key + " => " + value + ")";
    assert s[0] == 'm' && s[|s| - 1] == ')';
    assert s[..8] == "mapping(";
    assert s[8..|s| - 1] == key + " => " + value;
  }

  /** `parseType` of a trimmed mapping reads both of its sides as types. */
  lemma MappingParts(s: string, key: string, value: string)
    requires Trim(s) == s && MappingSides(s) == Some((key, value))
    ensures ParseType(s) == Type("mapping", Some(ParseType(key)), Some(ParseType(value)))
  {
  }

  lemma ArrowSides(key: string, value: string)
    ensures var content := key + " => " + value;
      content[..|key| + 1] == key + " " && content[|key| + 3..] == " " + value
  {
  }

  /** The sides of a printed mapping are the key and value texts. */
  lemma PrintedMappingSides(key: string, value: string)
    requires !Contains(key, "=>") && IsTrimmed(key) && IsTrimmed(value)
    ensures var s := "mapping(" + key + " => " + value + ")";
      Trim(s) == s && MappingSides(s) == Some((key, value))
  {
    var s := "mapping(" + key + " => " + value + ")";
    MappingText(key, value);
    TrimOfTrimmed(s);
    ArrowAfterKey(key, value);
    ArrowSides(key, value);
    TrimPadded(key);
    TrimPadded(value);
  }

  lemma MappingTypeText(t: Type)
    requires t.name == "mapping"
    ensures TypeText(Some(t)) == "mapping(" + TypeText(t.keyType) + " => " + TypeText(t.valueType) + ")"
  {
  }

  /** The type the generator prints for a DSL type parses back to that type. */
  lemma {:induction false} TypeRoundTrip(t: Type)
    requires DslType(t)
    ensures ParseType(TypeText(Some(t))) == t
    decreases t
  {
    if t.name == "mapping" {
      var k, v := t.keyType.value, t.valueType.value;
      TypeRoundTrip(v);
      MappingRoundTrip(k, v);
      assert t == Type("mapping", Some(k), Some(v));
    } else {
      ScalarRoundTrip(t);
    }
  }

  /** A printed mapping parses back to the mapping when its value type does. */
  lemma MappingRoundTrip(k: Type, v: Type)
    requires ScalarDslType(k) && !Contains(k.name, "=>") && DslType(v)
    requires ParseType(TypeText(Some(v))) == v
    ensures ParseType(TypeText(Some(Type("mapping", Some(k), Some(v))))) == Type("mapping", Some(k), Some(v))
  {
    var key, value := TypeText(Some(k)), TypeText(Some(v));
    MappingTypeText(Type("mapping", Some(k), Some(v)));
    ScalarText(k);
    ScalarRoundTrip(k);
    DslTypeTextTrimmed(v);
    PrintedMappingSides(key, value);
    MappingParts("mapping(" + key + " => " + value + ")", key, value);
  }

  lemma ScalarText(t: Type)
    requires ScalarDslType(t)
    ensures TypeText(Some(t)) == t.name
  {
  }

  lemma ScalarRoundTrip(t: Type)
    requires ScalarDslType(t)
    ensures ParseType(TypeText(Some(t))) == t
  {
    TrimOfTrimmed(t.name);
  }

  // ---------------------------------------------------------------------
  // State variables
  // ---------------------------------------------------------------------

  /** `parseStateVariable` yields nothing exactly for a line without a colon. */
  lemma StateVariableNeedsColon(line: string)
    ensures ParseStateVariable(line).None? <==> ':' !in line
  {
    if ':' in line {
      var k :| 0 <= k < |line| && line[k] == ':';
      CharFound(line, ':', k);
    } else {
      NoCharNoIndex(line, ':');
    }
  }

  lemma ColonAfterName(n: string, rest: string)
    requires ':' !in n
    ensures IndexOf(n + ":" + rest, ":") == |n|
  {
    IndexOfChar(n + ":" + rest, ':', |n|);
  }

  /** `name: type = value` declares `name` of that type with that initial value. */
  lemma StateVariableWithValue(n: string, ty: string, v: string)
    requires ':' !in n && '=' !in ty
    requires IsTrimmed(ty) && ty != [] && IsTrimmed(v) && v != []
    ensures ParseStateVariable(n + ": " + ty + " = " + v)
            == Some(StateVariable(Trim(n), ParseType(ty), Some(ParseExpression(v))))
  {
    var x := ty + " = " + v;
    Associative(n + ": ", ty, " = ", v);
    ColonSplit(n, x);
    ValueAfterType(ty, v);
    StateVariableParts(n + ": " + x, |n|, |ty| + 1);
  }

  /** `parseStateVariable` of a line with a colon, and an `=` after it at `equal` in the trimmed rest. */
  lemma StateVariableParts(line: string, colon: nat, equal: nat)
    requires IndexOf(line, ":") == colon
    requires var rest := Trim(line[colon + 1..]); IndexOf(rest, "=") == equal
    ensures var rest := Trim(line[colon + 1..]);
      ParseStateVariable(line)
      == Some(StateVariable(Trim(line[..colon]), ParseType(Trim(rest[..equal])), Some(ParseExpression(Trim(rest[equal + 1..])))))
  {
  }

  lemma Associative(a: string, b: string, c: string, d: string)
    ensures a + b + c + d == a + (b + c + d)
  {
  }

  /** In `name: rest` the first colon ends the name, and the rest is read trimmed. */
  lemma ColonSplit(n: string, x: string)
    requires ':' !in n && IsTrimmed(x)
    ensures var line := n + ": " + x;
      && IndexOf(line, ":") == |n| && line[..|n|] == n && Trim(line[|n| + 1..]) == x
  {
    var line := n + ":" + (" " + x);
    assert n + ": " + x == line;
    ColonAfterName(n, " " + x);
    assert line[..|n|] == n && line[|n| + 1..] == " " + x;
    TrimPadded(x);
  }

  /** Inside `type = value`, the type and the value around the first `=`. */
  lemma ValueAfterType(ty: string, v: string)
    requires '=' !in ty && IsTrimmed(ty) && ty != [] && IsTrimmed(v) && v != []
    ensures var x := ty + " = " + v;
      && IsTrimmed(x) && IndexOf(x, "=") == |ty| + 1
      && Trim(x[..|ty| + 1]) == ty && Trim(x[|ty| + 2..]) == v
  {
    var x := ty + " = " + v;
    assert x[0] == ty[0] && x[|x| - 1] == v[|v| - 1];
    IndexOfChar(x, '=', |ty| + 1);
    assert x[..|ty| + 1] == ty + " " && x[|ty| + 2..] == " " + v;
    TrimPadded(ty);
    TrimPadded(v);
  }

  /**
   * A mapping-typed state variable is cut at the `=` of its `=>`: the type
   * becomes the text up to the key, which is no mapping, and the initializer
   * becomes an identifier holding the rest (src/parser.js:121-126).
   */
  lemma MappingStateVariableMisread(n: string, k: string, v: string)
    requires ':' !in n && '=' !in k && IsTrimmed(k) && k != []
    ensures ParseStateVariable(n + ": " + ("mapping(" + k + " => " + v + ")"))
            == Some(StateVariable(Trim(n), ScalarType("mapping(" + k), Some(Identifier("> " + v + ")"))))
  {
    var x := "mapping(" + k + " => " + v + ")";
    MappingCutAtArrow(k, v);
    ColonSplit(n, x);
    StateVariableParts(n + ": " + x, |n|, |k| + 9);
    MappingKeyIsScalar(k);
    var e := "> " + v + ")";
    assert e[0] == '>' && e[|e| - 1] == ')';
    ComparisonTextIsIdentifier(e);
  }

  /** A trimmed text that starts with `>` is read as an identifier of that text. */
  lemma ComparisonTextIsIdentifier(e: string)
    requires e != [] && e[0] == '>' && IsTrimmed(e)
    ensures ParseExpression(e) == Identifier(e)
  {
    TrimOfTrimmed(e);
    assert !IsDigit(e[0]);
    assert e != "true" && e != "false" by { assert "true"[0] != '>' && "false"[0] != '>'; }
    assert !StartsWith(e, "\"") by { assert "\""[0] != e[0]; }
    assert !StartsWith(e, "address(") by {
      if |e| >= 8 { assert e[..8][0] == e[0]; }
    }
  }

  /** Inside `mapping(K => V)`, the text around the first `=`, which is the one of `=>`. */
  lemma MappingCutAtArrow(k: string, v: string)
    requires '=' !in k && IsTrimmed(k) && k != []
    ensures var x := "mapping(" + k + " => " + v + ")";
      && IsTrimmed(x) && IndexOf(x, "=") == |k| + 9
      && Trim(x[..|k| + 9]) == "mapping(" + k && Trim(x[|k| + 10..]) == "> " + v + ")"
  {
    var ty := "mapping(" + k;
    var w := "> " + v + ")";
    assert ty[0] == 'm' && w[0] == '>' && w[|w| - 1] == ')';
    assert '=' !in ty by {
      forall j | 0 <= j < |ty| ensures ty[j] != '=' {
        if j >= 8 { assert ty[j] == k[j - 8]; }
      }
    }
    ArrowSplit(ty, v);
    CutAtFirstEquals(ty, w);
  }

  /** `T => V)` is `T`, then ` =`, then `> V)`. */
  lemma ArrowSplit(ty: string, v: string)
    ensures ty + " => " + v + ")" == ty + " =" + ("> " + v + ")")
  {
    assert " => " == " =" + "> ";
  }

  /** In `T =W`, the first `=` ends `T`, and both sides are read trimmed. */
  lemma CutAtFirstEquals(ty: string, w: string)
    requires '=' !in ty && IsTrimmed(ty) && ty != [] && IsTrimmed(w) && w != []
    ensures var x := ty + " =" + w;
      && IsTrimmed(x) && IndexOf(x, "=") == |ty| + 1
      && Trim(x[..|ty| + 1]) == ty && Trim(x[|ty| + 2..]) == w
  {
    var x := ty + " =" + w;
    assert x[0] == ty[0] && x[|x| - 1] == w[|w| - 1];
    IndexOfChar(x, '=', |ty| + 1);
    assert x[..|ty| + 1] == ty + " " && x[|ty| + 2..] == w;
    TrimPadded(ty);
    TrimOfTrimmed(w);
  }

  /** `mapping(K` with no `=>` in it is read as a scalar type of that name. */
  lemma MappingKeyIsScalar(k: string)
    requires '=' !in k && IsTrimmed(k) && k != []
    ensures ParseType("mapping(" + k) == ScalarType("mapping(" + k)
  {
    var t := "mapping(" + k;
    TrimOfTrimmed(t);
    KeyWithoutEquals("mapping(", k);
    NoArrowWithoutEquals(Substring(t, 8, |t| - 1));
  }

  /** The text between a prefix and the last character holds no `=` when the rest holds none. */
  lemma KeyWithoutEquals(m: string, k: string)
    requires '=' !in k && k != []
    ensures '=' !in Substring(m + k, |m|, |m + k| - 1)
  {
    var s := m + k;
    assert s[|m|..|s| - 1] == k[..|k| - 1];
  }

  /** A text without `=` has no `=>`. */
  lemma NoArrowWithoutEquals(s: string)
    requires '=' !in s
    ensures IndexOf(s, "=>") == -1
  {
    forall j ensures !OccursAt(s, "=>", j) {
      if 0 <= j && j + 2 <= |s| {
        assert s[j..j + 2][0] == s[j];
      }
    }
  }

  /** `name: type` declares `name` of that type with no initial value. */
  lemma StateVariableWithoutValue(n: string, ty: string)
    requires ':' !in n && '=' !in ty && IsTrimmed(ty)
    ensures ParseStateVariable(n + ": " + ty) == Some(StateVariable(Trim(n), ParseType(ty), None))
  {
    ColonSplit(n, ty);
    NoCharNoIndex(ty, '=');
    StateVariablePartsNoValue(n + ": " + ty, |n|);
  }

  /** `parseStateVariable` of a line with a colon and no `=` after it. */
  lemma StateVariablePartsNoValue(line: string, colon: nat)
    requires IndexOf(line, ":") == colon
    requires !Contains(Trim(line[colon + 1..]), "=")
    ensures ParseStateVariable(line) == Some(StateVariable(Trim(line[..colon]), ParseType(Trim(line[colon + 1..])), None))
  {
  }

  // ---------------------------------------------------------------------
  // Parameters
  // ---------------------------------------------------------------------

  /** Pieces that all have a colon give one parameter each, in order. */
  lemma {:induction false} ParameterPiecesAll(pieces: seq<string>)
    requires forall k :: 0 <= k < |pieces| ==> ':' in pieces[k]
    ensures |ParameterPieces(pieces)| == |pieces|
    ensures forall k :: 0 <= k < |pieces| ==> ParameterPiece(pieces[k]) == Some(ParameterPieces(pieces)[k])
  {
    if pieces != [] {
      var p := pieces[0];
      var k :| 0 <= k < |p| && p[k] == ':';
      CharFound(p, ':', k);
      ParameterPiecesAll(pieces[1..]);
    }
  }

  /** Pieces without a colon give no parameters. */
  lemma {:induction false} ParameterPiecesNone(pieces: seq<string>)
    requires forall k :: 0 <= k < |pieces| ==> ':' !in pieces[k]
    ensures ParameterPieces(pieces) == []
  {
    if pieces != [] {
      NoCharNoIndex(pieces[0], ':');
      ParameterPiecesNone(pieces[1..]);
    }
  }

  /** A comma-separated list of `name: type` pieces gives one parameter per piece, in order. */
  lemma ParametersOfList(pieces: seq<string>)
    requires |pieces| >= 1
    requires forall k :: 0 <= k < |pieces| ==> ',' !in pieces[k] && ':' in pieces[k]
    ensures var ps := ParseParameters(Join(pieces, ","));
      |ps| == |pieces| && forall k :: 0 <= k < |pieces| ==> ParameterPiece(pieces[k]) == Some(ps[k])
  {
    var s := Join(pieces, ",");
    SplitJoin(pieces, ',');
    GeneratorProps.JoinStartsWith(pieces, ",");
    var k :| 0 <= k < |pieces[0]| && pieces[0][k] == ':';
    assert s[k] == ':';
    TrimNonBlank(s, k);
    ParameterPiecesAll(pieces);
  }

  // ---------------------------------------------------------------------
  // Arguments
  // ---------------------------------------------------------------------

  /** Every argument prints as non-empty trimmed text. */
  predicate TrimmedArguments(args: seq<Expr>) {
    forall k :: 0 <= k < |args| ==> ExpressionText(args[k]) != [] && IsTrimmed(ExpressionText(args[k]))
  }

  lemma FlushTrimmed(args: seq<Expr>, current: string)
    requires TrimmedArguments(args)
    ensures TrimmedArguments(Flush(args, current))
  {
    if Trim(current) != [] {
      var e := ParseExpression(Trim(current));
      ExpressionTextOfParse(Trim(current));
      TrimIdempotent(current);
      TrimmedSnoc(args, e);
    }
  }

  lemma TrimmedSnoc(args: seq<Expr>, e: Expr)
    requires TrimmedArguments(args) && ExpressionText(e) != [] && IsTrimmed(ExpressionText(e))
    ensures TrimmedArguments(args + [e])
  {
    forall k | 0 <= k < |args| + 1
      ensures ExpressionText((args + [e])[k]) != [] && IsTrimmed(ExpressionText((args + [e])[k]))
    {
      if k < |args| {
        assert (args + [e])[k] == args[k];
      } else {
        assert (args + [e])[k] == e;
      }
    }
  }

  lemma {:induction false} ScanTrimmed(s: string, i: nat, current: string, depth: int, args: seq<Expr>)
    requires i <= |s| && TrimmedArguments(args)
    ensures TrimmedArguments(Scan(s, i, current, depth, args, Flush))
    decreases |s| - i
  {
    if i == |s| {
      FlushTrimmed(args, current);
    } else if s[i] == '(' || s[i] == ')' {
      ScanTrimmed(s, i + 1, current + [s[i]], if s[i] == '(' then depth + 1 else depth - 1, args);
    } else if s[i] == ',' && depth == 0 {
      FlushTrimmed(args, current);
      ScanTrimmed(s, i + 1, [], depth, Flush(args, current));
    } else {
      ScanTrimmed(s, i + 1, current + [s[i]], depth, args);
    }
  }

  /** `parseArgumentList` drops blank pieces: every argument it returns prints as non-empty trimmed text. */
  lemma ArgumentsTrimmed(s: string)
    ensures TrimmedArguments(ArgumentList(s))
  {
    ScanTrimmed(s, 0, [], 0, []);
  }

  /** What the scan collects from the pieces, in order. */
  function FlushAll<T>(acc: T, pieces: seq<string>, flush: (T, string) -> T): T {
    if pieces == [] then acc else FlushAll(flush(acc, pieces[0]), pieces[1..], flush)
  }

  /** How one character changes the parenthesis depth of the scan. */
  function DepthStep(c: char): int {
    if c == '(' then 1 else if c == ')' then -1 else 0
  }

  /** The parenthesis depth a text adds: its `(` count minus its `)` count. */
  function Depth(p: string): int {
    if p == [] then 0 else DepthStep(p[0]) + Depth(p[1..])
  }

  /**
   * A piece that the scan keeps whole: each of its commas sits at a depth
   * other than 0, counted from the start of the piece, and its parentheses
   * balance, so the depth is back at 0 after it. `address(0)` and `f(a, b)`
   * are such pieces.
   */
  predicate Enclosed(p: string) {
    Depth(p) == 0 && forall k :: 0 <= k < |p| && p[k] == ',' ==> Depth(p[..k]) != 0
  }

  lemma AppendSlice(current: string, s: string, i: nat, j: nat)
    requires i < j <= |s|
    ensures current + [s[i]] + s[i + 1..j] == current + s[i..j]
  {
    assert s[i..j] == [s[i]] + s[i + 1..j];
  }

  /**
   * From depth `d`, a stretch whose every comma is met at a depth other than
   * 0 joins the current piece whole, and the depth moves by its `Depth`.
   */
  lemma {:induction false} ScanEnclosed<T>(s: string, i: nat, current: string, d: int, acc: T, flush: (T, string) -> T, j: nat)
    requires i <= j <= |s|
    requires forall k :: i <= k < j && s[k] == ',' ==> d + Depth(s[i..k]) != 0
    ensures Scan(s, i, current, d, acc, flush) == Scan(s, j, current + s[i..j], d + Depth(s[i..j]), acc, flush)
    decreases j - i
  {
    if i < j {
      var d' := d + DepthStep(s[i]);
      assert s[i..i] == [];
      forall k | i + 1 <= k < j && s[k] == ',' ensures d' + Depth(s[i + 1..k]) != 0 {
        assert s[i..k][1..] == s[i + 1..k];
      }
      ScanEnclosed(s, i + 1, current + [s[i]], d', acc, flush, j);
      assert s[i..j][1..] == s[i + 1..j];
      AppendSlice(current, s, i, j);
    } else {
      assert current + s[i..j] == current;
    }
  }

  /** An enclosed piece at `i` meets each of its commas at a depth other than 0. */
  lemma EnclosedSlice(s: string, i: nat, p: string)
    requires i + |p| <= |s| && s[i..i + |p|] == p && Enclosed(p)
    ensures forall k :: i <= k < i + |p| && s[k] == ',' ==> 0 + Depth(s[i..k]) != 0
  {
    forall k | i <= k < i + |p| && s[k] == ',' ensures 0 + Depth(s[i..k]) != 0 {
      assert s[k] == p[k - i];
      assert s[i..k] == p[..k - i];
    }
  }

  /** The scan over an enclosed piece at `i`, from depth 0: the piece joins the current text whole. */
  lemma ScanPiece<T>(s: string, i: nat, p: string, acc: T, flush: (T, string) -> T)
    requires i + |p| <= |s| && s[i..i + |p|] == p && Enclosed(p)
    ensures Scan(s, i, [], 0, acc, flush) == Scan(s, i + |p|, p, 0, acc, flush)
  {
    EnclosedSlice(s, i, p);
    ScanEnclosed(s, i, [], 0, acc, flush, i + |p|);
    assert [] + s[i..i + |p|] == p;
  }

  /** A joined list starts with its first piece and a separator. */
  lemma JoinHead(s: string, i: nat, pieces: seq<string>)
    requires i <= |s| && |pieces| >= 2 && s[i..] == Join(pieces, ",")
    ensures var p := pieces[0];
      && i + |p| < |s| && s[i..i + |p|] == p && s[i + |p|] == ','
      && s[i + |p| + 1..] == Join(pieces[1..], ",")
  {
    var p := pieces[0];
    var rest := Join(pieces[1..], ",");
    assert s[i..] == p + "," + rest;
    assert s[i..][..|p|] == p;
    assert s[i..][|p|] == ',';
    assert s[i..][|p| + 1..] == rest;
  }

  /** The scan of a comma-joined list of enclosed pieces flushes the pieces, in order. */
  lemma {:induction false} ScanPieces<T>(s: string, i: nat, pieces: seq<string>, acc: T, flush: (T, string) -> T)
    requires i <= |s| && |pieces| >= 1 && s[i..] == Join(pieces, ",")
    requires forall k :: 0 <= k < |pieces| ==> Enclosed(pieces[k])
    ensures Scan(s, i, [], 0, acc, flush) == FlushAll(acc, pieces, flush)
    decreases |pieces|
  {
    var p := pieces[0];
    if |pieces| == 1 {
      assert s[i..i + |p|] == p;
      ScanPiece(s, i, p, acc, flush);
    } else {
      JoinHead(s, i, pieces);
      ScanPiece(s, i, p, acc, flush);
      ScanPieces(s, i + |p| + 1, pieces[1..], flush(acc, p), flush);
    }
  }

  /**
   * The arguments are the pieces between the commas met at parenthesis
   * depth 0: a list joined from enclosed pieces, such as
   * `address(0), to, amount`, gives its pieces that are not blank, trimmed
   * and parsed, in order.
   */
  lemma ArgumentsOfList(pieces: seq<string>)
    requires |pieces| >= 1
    requires forall k :: 0 <= k < |pieces| ==> Enclosed(pieces[k])
    ensures ArgumentList(Join(pieces, ",")) == FlushAll([], pieces, Flush)
  {
    ScanPieces(Join(pieces, ","), 0, pieces, [], Flush);
  }

  // ---------------------------------------------------------------------
  // Assignments and conditions
  // ---------------------------------------------------------------------

  /** Two `=` in a row make splitting at `=` give at least three pieces. */
  lemma TwoEqualsThreePieces(line: string, j: nat)
    requires j + 1 < |line| && line[j] == '=' && line[j + 1] == '='
    ensures |Split(line, "=")| >= 3
  {
    CharFound(line, '=', j);
    var i := IndexOf(line, "=");
    assert line[j..j + 1] == "=";
    assert OccursAt(line, "=", j);
    var rest := line[i + 1..];
    assert rest[j - i] == '=';
    CharFound(rest, '=', j - i);
  }

  /** A line with `==` and neither `+=` nor `-=` splits at `=` into three or more pieces, so it is no assignment. */
  lemma EqualityIsNotAssignment(line: string, m: Matchers)
    requires Contains(line, "==") && !Contains(line, "+=") && !Contains(line, "-=")
    ensures ParseAssignment(line, m) == None
  {
    var j := IndexOf(line, "==");
    assert line[j..j + 2] == "==";
    assert line[j] == '=' && line[j + 1] == '=';
    TwoEqualsThreePieces(line, j);
  }

  /** A trimmed line that does not start with `require(` and has an `=` is read as an assignment. */
  lemma ReadAsAssignment(line: string, m: Matchers)
    requires IsTrimmed(line) && !StartsWith(line, "require(") && Contains(line, "=")
    ensures ParseStatement(line, m) == ParseAssignment(line, m)
  {
    TrimOfTrimmed(line);
  }

  lemma ReturnLine(x: string)
    requires x != [] && IsTrimmed(x)
    ensures IsTrimmed("return " + x) && !StartsWith("return " + x, "require(")
  {
    var line := "return " + x;
    assert line[0] == 'r' && line[|line| - 1] == x[|x| - 1];
    assert line[2] == 't';
  }

  lemma NotInAppend(c: char, a: string, b: string)
    requires c !in a && c !in b
    ensures c !in a + b
  {
  }

  /** `return a == b` is read as a failed assignment, so the statement is dropped. */
  lemma ComparisonReturnDropped(x: string, m: Matchers)
    requires Contains(x, "==") && IsTrimmed(x) && '+' !in x && '-' !in x
    ensures ParseStatement("return " + x, m) == None
  {
    var line := "return " + x;
    ReturnLine(x);
    var j := IndexOf(x, "==");
    assert x[j..j + 2] == "==";
    assert line[7 + j] == '=' && line[7 + j + 1] == '=';
    assert line[7 + j..7 + j + 2] == "==";
    CharFound(line, '=', 7 + j);
    assert OccursAt(line, "==", 7 + j);
    NotInAppend('+', "return ", x);
    NotInAppend('-', "return ", x);
    NoFirstCharNoIndex(line, "+=");
    NoFirstCharNoIndex(line, "-=");
    ReadAsAssignment(line, m);
    EqualityIsNotAssignment(line, m);
  }

  /** The operator of `t op v`, when `t` and `v` have none of `=`, `+` and `-`. */
  lemma OperatorOf(t: string, op: string, v: string)
    requires op == "+=" || op == "-=" || op == "="
    requires '=' !in t && '+' !in t && '-' !in t && '=' !in v && '+' !in v && '-' !in v
    ensures AssignmentOperator(t + " " + op + " " + v) == op
    ensures Split(t + " " + op + " " + v, op) == [t + " ", " " + v]
  {
    var line := t + " " + op + " " + v;
    var a, b := t + " ", " " + v;
    assert line == a + op + b;
    assert OccursAt(line, op, |a|);
    if op != "+=" {
      assert '+' !in line;
      NoFirstCharNoIndex(line, "+=");
    }
    if op == "=" {
      assert '-' !in line;
      NoFirstCharNoIndex(line, "-=");
    }
    forall j | 0 <= j < |a| ensures !OccursAt(line, op, j) {
      NoOccurrenceWithout(line, op, j);
    }
    NoFirstCharNoIndex(b, op);
    SplitTwo(a, b, op);
  }

  /** `t op v` is a trimmed line, not a `require(`, with an `=` in it. */
  lemma AssignmentLine(t: string, op: string, v: string)
    requires op == "+=" || op == "-=" || op == "="
    requires t != [] && IsTrimmed(t) && v != [] && IsTrimmed(v) && '(' !in t
    ensures var line := t + " " + op + " " + v;
      IsTrimmed(line) && !StartsWith(line, "require(") && Contains(line, "=")
  {
    var line := t + " " + op + " " + v;
    assert line[0] == t[0] && line[|line| - 1] == v[|v| - 1];
    if |t| >= 8 {
      assert line[7] == t[7];
    } else {
      assert line[|t|] == ' ';
    }
    assert line[|t| + |op|] == '=';
    CharFound(line, '=', |t| + |op|);
  }

  /** `parseAssignmentStatement` of a line that splits into two pieces at its operator. */
  lemma AssignmentParts(line: string, op: string, a: string, b: string, m: Matchers)
    requires AssignmentOperator(line) == op && Split(line, op) == [a, b]
    ensures ParseAssignment(line, m) == Some(AssignmentStatement(ParseTarget(Trim(a), m), op, ParseExpression(Trim(b))))
  {
  }

  /** A target without `[` is the identifier it spells. */
  lemma PlainTarget(t: string, m: Matchers)
    requires '[' !in t
    ensures ParseTarget(t, m) == Identifier(t)
  {
    NoCharNoIndex(t, '[');
  }

  /**
   * The assignment `t op v` reads as that assignment to the identifier `t`,
   * and the generator prints it back followed by `;`.
   */
  lemma AssignmentRoundTrip(t: string, op: string, v: string, m: Matchers)
    requires op == "+=" || op == "-=" || op == "="
    requires t != [] && IsTrimmed(t) && v != [] && IsTrimmed(v)
    requires '=' !in t && '+' !in t && '-' !in t && '[' !in t && '(' !in t
    requires '=' !in v && '+' !in v && '-' !in v
    ensures var line := t + " " + op + " " + v;
      && ParseStatement(line, m) == Some(AssignmentStatement(Identifier(t), op, ParseExpression(v)))
      && StatementText(ParseStatement(line, m).value) == line + ";"
  {
    var line := t + " " + op + " " + v;
    AssignmentLine(t, op, v);
    ReadAsAssignment(line, m);
    OperatorOf(t, op, v);
    AssignmentParts(line, op, t + " ", " " + v, m);
    TrimPadded(t);
    TrimPadded(v);
    PlainTarget(t, m);
    ExpressionTextOfParse(v);
    TrimOfTrimmed(v);
    AssignmentText(Identifier(t), op, ParseExpression(v));
  }

  lemma AssignmentText(target: Expr, op: string, value: Expr)
    ensures StatementText(AssignmentStatement(target, op, value))
            == ExpressionText(target) + " " + op + " " + ExpressionText(value) + ";"
  {
  }

  /** `l >= r` splits at `>=` into `l ` and ` r` when neither side has `>`. */
  lemma ComparisonPieces(l: string, r: string)
    requires '>' !in l && '>' !in r
    ensures Contains(l + " >= " + r, ">=")
    ensures Split(l + " >= " + r, ">=") == [l + " ", " " + r]
  {
    var s := l + " >= " + r;
    var a, b := l + " ", " " + r;
    assert s == a + ">=" + b;
    assert OccursAt(s, ">=", |a|);
    forall j | 0 <= j < |a| ensures !OccursAt(s, ">=", j) {
      NoOccurrenceWithout(s, ">=", j);
    }
    NoFirstCharNoIndex(b, ">=");
    SplitTwo(a, b, ">=");
  }

  /** `parseCondition` of a condition that splits at `>=` into `a` and `b`. */
  lemma ConditionParts(s: string, a: string, b: string, m: Matchers)
    requires Contains(s, ">=") && Split(s, ">=") == [a, b]
    ensures ParseCondition(s, m) == BinaryExpression(ParseConditionExpression(Trim(a), m), ">=", ParseExpression(Trim(b)))
  {
  }

  /** An operand without `[` is read as a plain expression. */
  lemma PlainOperand(t: string, m: Matchers)
    requires '[' !in t
    ensures ParseConditionExpression(t, m) == ParseExpression(t)
  {
    NoCharNoIndex(t, '[');
  }

  lemma ComparisonText(left: Expr, right: Expr)
    ensures ExpressionText(BinaryExpression(left, ">=", right)) == ExpressionText(left) + " >= " + ExpressionText(right)
  {
  }

  /** The condition `l >= r` is printed back as it was written. */
  lemma ConditionRoundTrip(l: string, r: string, m: Matchers)
    requires IsTrimmed(l) && IsTrimmed(r) && '>' !in l && '>' !in r && '[' !in l
    ensures ExpressionText(ParseCondition(l + " >= " + r, m)) == l + " >= " + r
  {
    ComparisonPieces(l, r);
    ConditionParts(l + " >= " + r, l + " ", " " + r, m);
    TrimPadded(l);
    TrimPadded(r);
    PlainOperand(l, m);
    ExpressionTextOfParse(l);
    ExpressionTextOfParse(r);
    TrimOfTrimmed(l);
    TrimOfTrimmed(r);
    ComparisonText(ParseExpression(l), ParseExpression(r));
  }
}
