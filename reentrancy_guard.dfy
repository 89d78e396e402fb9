/**
 * The transformer for the function decorator `reentrancy_guard`
 * (src/transformers/ReentrancyGuardTransformer.js). Every guarded function
 * gets a lock variable and a modifier of its own, both named after it.
 */
module ReentrancyGuard {
  import opened Ast
  import opened Insertions
  import opened Objects
  import OnlyOwner

  const LockPrefix := "_reentrancyLock_"
  const GuardPrefix := "nonReentrant_"

  function LockName(functionName: string): (n: string)
    ensures |n| == |LockPrefix| + |functionName| && n[|LockPrefix|..] == functionName
  {
    LockPrefix + functionName
  }

  function GuardName(functionName: string): (n: string)
    ensures |n| == |GuardPrefix| + |functionName| && n[|GuardPrefix|..] == functionName
  {
    GuardPrefix + functionName
  }

  /** The lock `bool` variable of one function, initially unlocked. */
  function LockVariable(functionName: string): StateVariable {
    StateVariable(LockName(functionName), ScalarType("bool"), Some(Literal("false", "boolean")))
  }

  /**
   * The guard modifier of one function: refuse to enter while the lock is
   * set, set it, run the body, clear it.
   */
  function GuardModifier(functionName: string): (m: Modifier)
    ensures m.name == GuardName(functionName) && m.parameters == []
    ensures m.body.Some? && |m.body.value| == 4 && CountPlaceholders(m.body.value) == 1
    ensures m.body.value[2] == PlaceholderStatement
  {
    var lock := Identifier(LockName(functionName));
    var unlocked := Literal("false", "boolean");
    var check := RequireStatement(BinaryExpression(lock, "==", unlocked),
                                  Some(Literal("\"ReentrancyGuard: reentrant call\"", "string")));
    var acquire := AssignmentStatement(lock, "=", Literal("true", "boolean"));
    var release := AssignmentStatement(lock, "=", Literal("false", "boolean"));
    var body := [check, acquire, PlaceholderStatement, release];
    assert body[1..] == [acquire, PlaceholderStatement, release];
    assert body[1..][1..] == [PlaceholderStatement, release];
    assert body[1..][1..][1..] == [release];
    assert [release][1..] == [];
    assert CountPlaceholders([release]) == 0;
    assert CountPlaceholders([PlaceholderStatement, release]) == 1;
    assert CountPlaceholders([acquire, PlaceholderStatement, release]) == 1;
    Modifier(GuardName(functionName), [], Some(body))
  }

  /** The contract after the transformer ran for its `k`-th function. */
  function Apply(c: Contract, k: nat): Contract
    requires k < |c.functions|
  {
    var f := c.functions[k];
    c.(state := Some(WithVariable(c.state, LockVariable(f.name))),
       modifiers := Some(WithModifier(c.modifiers, GuardModifier(f.name))),
       functions := c.functions[k := f.(modifiers := Some(WithName(f.modifiers, GuardName(f.name))))])
  }

  /** Functions with different names get different lock variables and different guards. */
  lemma {:induction false} NamesInjective(f1: string, f2: string)
    requires f1 != f2
    ensures LockName(f1) != LockName(f2) && GuardName(f1) != GuardName(f2)
  {
    assert LockName(f1)[|LockPrefix|..] == f1;
    assert LockName(f2)[|LockPrefix|..] == f2;
    assert GuardName(f1)[|GuardPrefix|..] == f1;
    assert GuardName(f2)[|GuardPrefix|..] == f2;
  }

  /** A lock variable is never the owner variable, and a guard is never the `onlyOwner` modifier. */
  lemma {:induction false} NamesDistinctFromOwner(f: string)
    ensures LockName(f) != OnlyOwner.OwnerVarName && GuardName(f) != OnlyOwner.ModifierName
  {
    assert |LockName(f)| >= |LockPrefix| > |OnlyOwner.OwnerVarName|;
    assert GuardName(f)[0] == 'n' && OnlyOwner.ModifierName[0] == 'o';
  }

  /**
   * Only appends: at most the function's lock variable, its guard and the
   * guard's name are added, each only when nothing of that name exists, and
   * no other function changes.
   */
  lemma {:induction false} ApplyOnlyAppends(c: Contract, k: nat)
    requires k < |c.functions|
    ensures var r := Apply(c, k);
      var name := c.functions[k].name;
      && (Variables(r) == Variables(c) || Variables(r) == Variables(c) + [LockVariable(name)])
      && (Variables(r) == Variables(c) <==> HasVariable(Variables(c), LockName(name)))
      && (r.modifiers.value == c.modifiers.GetOr([]) || r.modifiers.value == c.modifiers.GetOr([]) + [GuardModifier(name)])
      && (r.modifiers.value == c.modifiers.GetOr([]) <==> HasModifier(c.modifiers.GetOr([]), GuardName(name)))
      && (var before := c.functions[k].modifiers.GetOr([]);
          && (r.functions[k].modifiers.value == before || r.functions[k].modifiers.value == before + [GuardName(name)])
          && (r.functions[k].modifiers.value == before <==> GuardName(name) in before))
      && forall j :: 0 <= j < |c.functions| && j != k ==> r.functions[j] == c.functions[j]
  {
    var r := Apply(c, k);
    assert Variables(r) == WithVariable(c.state, LockVariable(c.functions[k].name)).variables;
  }

  /** After the transformer the function's lock variable and guard exist and the function lists the guard. */
  lemma {:induction false} ApplyEstablishes(c: Contract, k: nat)
    requires k < |c.functions|
    ensures var r := Apply(c, k);
      var name := c.functions[k].name;
      && HasVariable(Variables(r), LockName(name))
      && r.modifiers.Some? && HasModifier(r.modifiers.value, GuardName(name))
      && r.functions[k].modifiers.Some? && GuardName(name) in r.functions[k].modifiers.value
  {
    var r := Apply(c, k);
    assert Variables(r) == WithVariable(c.state, LockVariable(c.functions[k].name)).variables;
  }

  /** The transformer changes nothing but the state section, the modifier list and the modifier names of the `k`-th function. */
  lemma ApplyKeepsShape(c: Contract, k: nat)
    requires k < |c.functions|
    ensures SameShape(c, Apply(c, k))
  {
  }

  /** Applying the transformer to the same function twice changes nothing the second time. */
  lemma {:induction false} ApplyIdempotent(c: Contract, k: nat)
    requires k < |c.functions|
    ensures Apply(Apply(c, k), k) == Apply(c, k)
  {
    var r := Apply(c, k);
    var name := c.functions[k].name;
    ApplyEstablishes(c, k);
    assert r.functions[k].name == name;
    assert r.state == Some(StateDeclaration(Variables(r)));
    assert WithVariable(r.state, LockVariable(name)) == r.state.value;
    assert WithModifier(r.modifiers, GuardModifier(name)) == r.modifiers.value;
    assert WithName(r.functions[k].modifiers, GuardName(name)) == r.functions[k].modifiers.value;
    assert r.functions[k := r.functions[k].(modifiers := Some(r.functions[k].modifiers.value))] == r.functions;
  }

  /**
   * No sharing: guarding two differently named functions of a contract that
   * has none of their locks and guards yields one lock variable and one guard
   * for each, and each function lists only its own guard.
   */
  lemma {:induction false} GuardsAreSeparate(c: Contract, k1: nat, k2: nat)
    requires k1 < |c.functions| && k2 < |c.functions|
    requires c.functions[k1].name != c.functions[k2].name
    requires forall n :: n in {c.functions[k1].name, c.functions[k2].name} ==>
               !HasVariable(Variables(c), LockName(n)) && !HasModifier(c.modifiers.GetOr([]), GuardName(n))
               && GuardName(n) !in c.functions[k1].modifiers.GetOr([]) + c.functions[k2].modifiers.GetOr([])
    ensures var r := Apply(Apply(c, k1), k2);
      var n1, n2 := c.functions[k1].name, c.functions[k2].name;
      && multiset(VariableNames(Variables(r)))[LockName(n1)] == 1
      && multiset(VariableNames(Variables(r)))[LockName(n2)] == 1
      && multiset(ModifierNames(r.modifiers.value))[GuardName(n1)] == 1
      && multiset(ModifierNames(r.modifiers.value))[GuardName(n2)] == 1
      && GuardName(n1) in r.functions[k1].modifiers.value && GuardName(n2) !in r.functions[k1].modifiers.value
      && GuardName(n2) in r.functions[k2].modifiers.value && GuardName(n1) !in r.functions[k2].modifiers.value
  {
    var n1, n2 := c.functions[k1].name, c.functions[k2].name;
    assert n1 in {n1, n2} && n2 in {n1, n2};
    NamesInjective(n1, n2);
    var r1 := Apply(c, k1);
    var r := Apply(r1, k2);
    assert r1.functions[k2].name == n2;
    forall n | n == n1 || n == n2
      ensures multiset(VariableNames(Variables(c)))[LockName(n)] == 0
      ensures multiset(ModifierNames(c.modifiers.GetOr([])))[GuardName(n)] == 0
    {
      assert n in {n1, n2};
      forall i | 0 <= i < |Variables(c)| ensures VariableNames(Variables(c))[i] != LockName(n) {
      }
      forall i | 0 <= i < |c.modifiers.GetOr([])| ensures ModifierNames(c.modifiers.GetOr([]))[i] != GuardName(n) {
      }
    }
    WithVariableCounts(c.state, LockVariable(n1), LockName(n1));
    WithVariableCounts(c.state, LockVariable(n1), LockName(n2));
    WithVariableCounts(r1.state, LockVariable(n2), LockName(n1));
    WithVariableCounts(r1.state, LockVariable(n2), LockName(n2));
    WithModifierCounts(c.modifiers, GuardModifier(n1), GuardName(n1));
    WithModifierCounts(c.modifiers, GuardModifier(n1), GuardName(n2));
    WithModifierCounts(r1.modifiers, GuardModifier(n2), GuardName(n1));
    WithModifierCounts(r1.modifiers, GuardModifier(n2), GuardName(n2));
    ApplyOnlyAppends(c, k1);
    ApplyOnlyAppends(r1, k2);
  }

  /**
   * `ReentrancyGuardTransformer.transform(ast, contract, func)`: creates a
   * missing state section, modifier list or modifier-name list, then appends
   * the function's lock variable, its guard and the guard's name where nothing
   * of that name exists.
   */
  method Transform(ast: ProgramNode, contract: ContractNode, func: FunctionNode) returns (r: ProgramNode)
    modifies contract`state, contract`modifiers, func`modifiers
    ensures r == ast
    ensures contract.state == Some(WithVariable(old(contract.state), LockVariable(func.name)))
    ensures contract.modifiers == Some(WithModifier(old(contract.modifiers), GuardModifier(func.name)))
    ensures func.modifiers == Some(WithName(old(func.modifiers), GuardName(func.name)))
  {
    var lockVarName := LockName(func.name);
    var modifierName := GuardName(func.name);
    if contract.state.None? {
      contract.state := Some(StateDeclaration([]));
    }
    var lockVarExists := HasVariable(contract.state.value.variables, lockVarName);
    if !lockVarExists {
      contract.state := Some(StateDeclaration(contract.state.value.variables + [LockVariable(func.name)]));
    }
    if contract.modifiers.None? {
      contract.modifiers := Some([]);
    }
    var modifierExists := HasModifier(contract.modifiers.value, modifierName);
    if !modifierExists {
      contract.modifiers := Some(contract.modifiers.value + [GuardModifier(func.name)]);
    }
    if func.modifiers.None? {
      func.modifiers := Some([]);
    }
    if modifierName !in func.modifiers.value {
      func.modifiers := Some(func.modifiers.value + [modifierName]);
    }
    r := ast;
  }
}
