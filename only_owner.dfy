/**
 * The transformer for the function decorator `only_owner`
 * (src/transformers/OnlyOwnerTransformer.js). The `owner` variable and the
 * `onlyOwner` modifier are shared by every decorated function of a contract:
 * each is added only when nothing of that name exists yet.
 */
module OnlyOwner {
  import opened Ast
  import opened Insertions
  import opened Objects

  const OwnerVarName := "owner"
  const ModifierName := "onlyOwner"

  /** The synthesized `owner: address`, initialised to the caller. */
  function OwnerVariable(): StateVariable {
    StateVariable(OwnerVarName, ScalarType("address"), Some(Identifier("msg.sender")))
  }

  /** `modifier onlyOwner() { require(msg.sender == owner, "Caller is not the owner"); _; }` */
  function OwnerModifier(): (m: Modifier)
    ensures m.name == ModifierName && m.body.Some? && CountPlaceholders(m.body.value) == 1
  {
    var check := BinaryExpression(Identifier("msg.sender"), "==", Identifier(OwnerVarName));
    var require := RequireStatement(check, Some(Literal("\"Caller is not the owner\"", "string")));
    var m := Modifier(ModifierName, [], Some([require, PlaceholderStatement]));
    assert m.body.value[1..] == [PlaceholderStatement];
    assert CountPlaceholders([PlaceholderStatement]) == 1;
    m
  }

  /** The contract after the transformer ran for its `k`-th function. */
  function Apply(c: Contract, k: nat): Contract
    requires k < |c.functions|
  {
    var f := c.functions[k];
    c.(state := Some(WithVariable(c.state, OwnerVariable())),
       modifiers := Some(WithModifier(c.modifiers, OwnerModifier())),
       functions := c.functions[k := f.(modifiers := Some(WithName(f.modifiers, ModifierName)))])
  }

  /**
   * Only appends: the old variables, modifiers and modifier names are
   * prefixes of the new ones, at most the owner variable, the `onlyOwner`
   * modifier and its name are added, and no other function changes.
   */
  lemma {:induction false} ApplyOnlyAppends(c: Contract, k: nat)
    requires k < |c.functions|
    ensures var r := Apply(c, k);
      && (Variables(r) == Variables(c) || Variables(r) == Variables(c) + [OwnerVariable()])
      && (Variables(r) == Variables(c) <==> HasVariable(Variables(c), OwnerVarName))
      && (r.modifiers.value == c.modifiers.GetOr([]) || r.modifiers.value == c.modifiers.GetOr([]) + [OwnerModifier()])
      && (r.modifiers.value == c.modifiers.GetOr([]) <==> HasModifier(c.modifiers.GetOr([]), ModifierName))
      && (var before := c.functions[k].modifiers.GetOr([]);
          && (r.functions[k].modifiers.value == before || r.functions[k].modifiers.value == before + [ModifierName])
          && (r.functions[k].modifiers.value == before <==> ModifierName in before))
      && forall j :: 0 <= j < |c.functions| && j != k ==> r.functions[j] == c.functions[j]
  {
    var r := Apply(c, k);
    assert Variables(r) == WithVariable(c.state, OwnerVariable()).variables;
  }

  /** After the transformer the contract has an owner variable and an `onlyOwner` modifier, and the function lists it. */
  lemma {:induction false} ApplyEstablishes(c: Contract, k: nat)
    requires k < |c.functions|
    ensures var r := Apply(c, k);
      && HasVariable(Variables(r), OwnerVarName)
      && r.modifiers.Some? && HasModifier(r.modifiers.value, ModifierName)
      && r.functions[k].modifiers.Some? && ModifierName in r.functions[k].modifiers.value
  {
    var r := Apply(c, k);
    assert Variables(r) == WithVariable(c.state, OwnerVariable()).variables;
  }

  /** The transformer changes nothing but the state section, the modifier list and the modifier names of the `k`-th function. */
  lemma ApplyKeepsShape(c: Contract, k: nat)
    requires k < |c.functions|
    ensures SameShape(c, Apply(c, k))
  {
  }

  /** Applying the transformer to the same function twice changes nothing the second time. */
  lemma {:induction false} ApplyIdempotent(c: Contract, k: nat)
    requires k < |c.functions|
    ensures Apply(Apply(c, k), k) == Apply(c, k)
  {
    var r := Apply(c, k);
    ApplyEstablishes(c, k);
    assert r.state == Some(StateDeclaration(Variables(r)));
    assert WithVariable(r.state, OwnerVariable()) == r.state.value;
    assert WithModifier(r.modifiers, OwnerModifier()) == r.modifiers.value;
    assert WithName(r.functions[k].modifiers, ModifierName) == r.functions[k].modifiers.value;
    assert r.functions[k := r.functions[k].(modifiers := Some(r.functions[k].modifiers.value))] == r.functions;
  }

  /**
   * Shared state: for two functions of a contract that has neither an owner
   * variable nor an `onlyOwner` modifier, the contract ends with exactly one
   * of each and both functions list `onlyOwner`.
   */
  lemma {:induction false} OwnerIsShared(c: Contract, k1: nat, k2: nat)
    requires k1 < |c.functions| && k2 < |c.functions| && k1 != k2
    requires !HasVariable(Variables(c), OwnerVarName)
    requires !HasModifier(c.modifiers.GetOr([]), ModifierName)
    ensures var r := Apply(Apply(c, k1), k2);
      && multiset(VariableNames(Variables(r)))[OwnerVarName] == 1
      && multiset(ModifierNames(r.modifiers.value))[ModifierName] == 1
      && ModifierName in r.functions[k1].modifiers.value
      && ModifierName in r.functions[k2].modifiers.value
  {
    var r1 := Apply(c, k1);
    var r := Apply(r1, k2);
    assert multiset(VariableNames(Variables(c)))[OwnerVarName] == 0 by {
      forall i | 0 <= i < |Variables(c)| ensures VariableNames(Variables(c))[i] != OwnerVarName {
      }
    }
    assert multiset(ModifierNames(c.modifiers.GetOr([])))[ModifierName] == 0 by {
      forall i | 0 <= i < |c.modifiers.GetOr([])| ensures ModifierNames(c.modifiers.GetOr([]))[i] != ModifierName {
      }
    }
    WithVariableCounts(c.state, OwnerVariable(), OwnerVarName);
    WithVariableCounts(r1.state, OwnerVariable(), OwnerVarName);
    WithModifierCounts(c.modifiers, OwnerModifier(), ModifierName);
    WithModifierCounts(r1.modifiers, OwnerModifier(), ModifierName);
    ApplyEstablishes(c, k1);
    ApplyOnlyAppends(r1, k2);
  }

  /**
   * `OnlyOwnerTransformer.transform(ast, contract, func)`: creates a missing
   * state section, modifier list or modifier-name list, then appends the owner
   * variable, the modifier and its name where nothing of that name exists.
   */
  method Transform(ast: ProgramNode, contract: ContractNode, func: FunctionNode) returns (r: ProgramNode)
    modifies contract`state, contract`modifiers, func`modifiers
    ensures r == ast
    ensures contract.state == Some(WithVariable(old(contract.state), OwnerVariable()))
    ensures contract.modifiers == Some(WithModifier(old(contract.modifiers), OwnerModifier()))
    ensures func.modifiers == Some(WithName(old(func.modifiers), ModifierName))
  {
    if contract.state.None? {
      contract.state := Some(StateDeclaration([]));
    }
    var ownerVarExists := HasVariable(contract.state.value.variables, OwnerVarName);
    if !ownerVarExists {
      contract.state := Some(StateDeclaration(contract.state.value.variables + [OwnerVariable()]));
    }
    if contract.modifiers.None? {
      contract.modifiers := Some([]);
    }
    var modifierExists := HasModifier(contract.modifiers.value, ModifierName);
    if !modifierExists {
      contract.modifiers := Some(contract.modifiers.value + [OwnerModifier()]);
    }
    if func.modifiers.None? {
      func.modifiers := Some([]);
    }
    if ModifierName !in func.modifiers.value {
      func.modifiers := Some(func.modifiers.value + [ModifierName]);
    }
    r := ast;
  }
}
