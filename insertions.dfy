/**
 * The guarded appends both function-level transformers perform: create a
 * missing container, look for an entry by name, and push a new entry only when
 * none of that name exists (src/transformers/OnlyOwnerTransformer.js:24-99 and
 * src/transformers/ReentrancyGuardTransformer.js:25-119 repeat this code).
 */
module Insertions {
  import opened Ast

  /** `variables.some(v => v.name === name)`. */
  predicate HasVariable(vs: seq<StateVariable>, name: string) {
    exists i :: 0 <= i < |vs| && vs[i].name == name
  }

  /** `modifiers.some(m => m.name === name)`. */
  predicate HasModifier(ms: seq<Modifier>, name: string) {
    exists i :: 0 <= i < |ms| && ms[i].name == name
  }

  /**
   * Creates the variables list when it is missing and appends `v` unless a
   * variable of the same name is already there.
   */
  function WithVariable(state: Option<StateDeclaration>, v: StateVariable): (d: StateDeclaration)
    ensures HasVariable(d.variables, v.name)
    ensures d.variables == VariablesOf(state) || d.variables == VariablesOf(state) + [v]
    ensures d.variables == VariablesOf(state) <==> HasVariable(VariablesOf(state), v.name)
  {
    var vs := VariablesOf(state);
    if HasVariable(vs, v.name) then
      StateDeclaration(vs)
    else
      assert (vs + [v])[|vs|] == v;
      StateDeclaration(vs + [v])
  }

  /** Creates the modifier list when it is missing and appends `m` unless a modifier of that name exists. */
  function WithModifier(ms: Option<seq<Modifier>>, m: Modifier): (r: seq<Modifier>)
    ensures HasModifier(r, m.name)
    ensures r == ms.GetOr([]) || r == ms.GetOr([]) + [m]
    ensures r == ms.GetOr([]) <==> HasModifier(ms.GetOr([]), m.name)
  {
    var old_ := ms.GetOr([]);
    if HasModifier(old_, m.name) then
      old_
    else
      assert (old_ + [m])[|old_|] == m;
      old_ + [m]
  }

  /** Creates the function's modifier-name list when it is missing and appends `name` unless it is included. */
  function WithName(names: Option<seq<string>>, name: string): (r: seq<string>)
    ensures name in r
    ensures r == names.GetOr([]) || r == names.GetOr([]) + [name]
    ensures r == names.GetOr([]) <==> name in names.GetOr([])
  {
    var old_ := names.GetOr([]);
    if name in old_ then old_ else old_ + [name]
  }

  /** A variable name occurs once more when it was missing, and otherwise as often as before. */
  lemma {:induction false} WithVariableCounts(state: Option<StateDeclaration>, v: StateVariable, n: string)
    ensures var before := multiset(VariableNames(VariablesOf(state)))[n];
            multiset(VariableNames(WithVariable(state, v).variables))[n]
            == if n == v.name && before == 0 then 1 else before
  {
    var vs := VariablesOf(state);
    var names := VariableNames(vs);
    if HasVariable(vs, v.name) {
      var i :| 0 <= i < |vs| && vs[i].name == v.name;
      assert names[i] == v.name;
      assert v.name in multiset(names);
    } else {
      assert VariableNames(vs + [v]) == names + [v.name];
      assert v.name !in names by {
        forall i | 0 <= i < |names| ensures names[i] != v.name {
          assert vs[i].name == names[i];
        }
      }
    }
  }

  /** A modifier name occurs once more when it was missing, and otherwise as often as before. */
  lemma {:induction false} WithModifierCounts(ms: Option<seq<Modifier>>, m: Modifier, n: string)
    ensures var before := multiset(ModifierNames(ms.GetOr([])))[n];
            multiset(ModifierNames(WithModifier(ms, m)))[n]
            == if n == m.name && before == 0 then 1 else before
  {
    var old_ := ms.GetOr([]);
    var names := ModifierNames(old_);
    if HasModifier(old_, m.name) {
      var i :| 0 <= i < |old_| && old_[i].name == m.name;
      assert names[i] == m.name;
      assert m.name in multiset(names);
    } else {
      assert ModifierNames(old_ + [m]) == names + [m.name];
      assert m.name !in names by {
        forall i | 0 <= i < |names| ensures names[i] != m.name {
          assert old_[i].name == names[i];
        }
      }
    }
  }

  /** A modifier name is listed once more when it was missing, and otherwise as often as before. */
  lemma WithNameCounts(names: Option<seq<string>>, name: string, n: string)
    ensures var before := multiset(names.GetOr([]))[n];
            multiset(WithName(names, name))[n] == if n == name && before == 0 then 1 else before
  {
  }

  /**
   * `b` is `a` with at most its state section, its modifier list and the
   * modifier-name lists of its functions changed.
   */
  predicate SameShape(a: Contract, b: Contract) {
    a.name == b.name && a.decorators == b.decorators && a.events == b.events
    && |a.functions| == |b.functions|
    && forall k :: 0 <= k < |a.functions| ==> b.functions[k] == a.functions[k].(modifiers := b.functions[k].modifiers)
  }

  lemma SameShapeTransitive(a: Contract, b: Contract, c: Contract)
    requires SameShape(a, b) && SameShape(b, c)
    ensures SameShape(a, c)
  {
  }

  /** Whether a variable of a given name exists depends only on the multiset of variables. */
  lemma HasVariableOfMultiset(a: seq<StateVariable>, b: seq<StateVariable>, n: string)
    requires multiset(a) == multiset(b)
    ensures HasVariable(a, n) <==> HasVariable(b, n)
  {
    if HasVariable(a, n) {
      var i :| 0 <= i < |a| && a[i].name == n;
      assert a[i] in multiset(b);
      var j :| 0 <= j < |b| && b[j] == a[i];
    }
    if HasVariable(b, n) {
      var i :| 0 <= i < |b| && b[i].name == n;
      assert b[i] in multiset(a);
      var j :| 0 <= j < |a| && a[j] == b[i];
    }
  }

  lemma HasModifierOfMultiset(a: seq<Modifier>, b: seq<Modifier>, n: string)
    requires multiset(a) == multiset(b)
    ensures HasModifier(a, n) <==> HasModifier(b, n)
  {
    if HasModifier(a, n) {
      var i :| 0 <= i < |a| && a[i].name == n;
      assert a[i] in multiset(b);
      var j :| 0 <= j < |b| && b[j] == a[i];
    }
    if HasModifier(b, n) {
      var i :| 0 <= i < |b| && b[i].name == n;
      assert b[i] in multiset(a);
      var j :| 0 <= j < |a| && a[j] == b[i];
    }
  }
}
