/**
 * The orchestrator runs the reentrancy guard before the owner restriction
 * (src/transformers/index.js). Running them the other way round gives the
 * same variables, modifiers and modifier names, only possibly in another
 * order: each transformer looks entries up by name and the names they add
 * never clash.
 */
module OrderProps {
  import opened Ast
  import opened Insertions
  import opened Pipeline
  import OnlyOwner
  import ReentrancyGuard

  /** The `k`-th function's step with the two transformers swapped. */
  function OwnerFirst(c: Contract, k: nat): Contract
    requires k < |c.functions|
  {
    var decorators := c.functions[k].decorators;
    var owned := if HasDecorator(decorators, OnlyOwnerDecorator) then OnlyOwner.Apply(c, k) else c;
    if HasDecorator(decorators, ReentrancyGuardDecorator) then ReentrancyGuard.Apply(owned, k) else owned
  }

  function OwnerFirstUpTo(c: Contract, n: nat): (r: Contract)
    requires n <= |c.functions|
    ensures |r.functions| == |c.functions|
  {
    if n == 0 then c else OwnerFirst(OwnerFirstUpTo(c, n - 1), n - 1)
  }

  /** A contract transformed with the two function transformers swapped. */
  function TransformContractOwnerFirst(c: Contract): Contract {
    OwnerFirstUpTo(c, |c.functions|)
  }

  /** The same function, except that its modifier names may come in another order. */
  predicate SameUpToOrder(f: Function, g: Function) {
    f.(modifiers := None) == g.(modifiers := None)
    && f.modifiers.Some? == g.modifiers.Some?
    && multiset(f.modifiers.GetOr([])) == multiset(g.modifiers.GetOr([]))
  }

  /** The same contract, except that variables, modifiers and modifier names may come in another order. */
  predicate Equivalent(a: Contract, b: Contract) {
    a.name == b.name && a.decorators == b.decorators && a.events == b.events
    && a.state.Some? == b.state.Some? && multiset(Variables(a)) == multiset(Variables(b))
    && a.modifiers.Some? == b.modifiers.Some? && multiset(a.modifiers.GetOr([])) == multiset(b.modifiers.GetOr([]))
    && |a.functions| == |b.functions|
    && forall j :: 0 <= j < |a.functions| ==> SameUpToOrder(a.functions[j], b.functions[j])
  }

  lemma EquivalentReflexive(c: Contract)
    ensures Equivalent(c, c)
  {
  }

  lemma EquivalentTransitive(a: Contract, b: Contract, c: Contract)
    requires Equivalent(a, b) && Equivalent(b, c)
    ensures Equivalent(a, c)
  {
  }

  // ---------------------------------------------------------------------
  // The guarded appends depend only on what is there, not on its order
  // ---------------------------------------------------------------------

  lemma WithVariableRespects(s1: Option<StateDeclaration>, s2: Option<StateDeclaration>, v: StateVariable)
    requires multiset(VariablesOf(s1)) == multiset(VariablesOf(s2))
    ensures multiset(WithVariable(s1, v).variables) == multiset(WithVariable(s2, v).variables)
  {
    HasVariableOfMultiset(VariablesOf(s1), VariablesOf(s2), v.name);
  }

  lemma WithModifierRespects(m1: Option<seq<Modifier>>, m2: Option<seq<Modifier>>, m: Modifier)
    requires multiset(m1.GetOr([])) == multiset(m2.GetOr([]))
    ensures multiset(WithModifier(m1, m)) == multiset(WithModifier(m2, m))
  {
    HasModifierOfMultiset(m1.GetOr([]), m2.GetOr([]), m.name);
  }

  lemma WithNameRespects(n1: Option<seq<string>>, n2: Option<seq<string>>, name: string)
    requires multiset(n1.GetOr([])) == multiset(n2.GetOr([]))
    ensures multiset(WithName(n1, name)) == multiset(WithName(n2, name))
  {
    assert name in n1.GetOr([]) <==> name in multiset(n1.GetOr([]));
    assert name in n2.GetOr([]) <==> name in multiset(n2.GetOr([]));
  }

  /**
   * Rebuilding equivalent contracts with equivalent state sections, modifier
   * lists and `k`-th functions gives equivalent contracts.
   */
  lemma {:induction false} RebuildRespects(a: Contract, b: Contract, k: nat,
                                           sa: StateDeclaration, sb: StateDeclaration,
                                           ma: seq<Modifier>, mb: seq<Modifier>, fa: Function, fb: Function)
    requires Equivalent(a, b) && k < |a.functions|
    requires multiset(sa.variables) == multiset(sb.variables) && multiset(ma) == multiset(mb)
    requires SameUpToOrder(fa, fb)
    ensures Equivalent(a.(state := Some(sa), modifiers := Some(ma), functions := a.functions[k := fa]),
                       b.(state := Some(sb), modifiers := Some(mb), functions := b.functions[k := fb]))
  {
    var x := a.(state := Some(sa), modifiers := Some(ma), functions := a.functions[k := fa]);
    var y := b.(state := Some(sb), modifiers := Some(mb), functions := b.functions[k := fb]);
    forall j | 0 <= j < |x.functions| ensures SameUpToOrder(x.functions[j], y.functions[j]) {
      if j != k {
        assert SameUpToOrder(a.functions[j], b.functions[j]);
      }
    }
  }

  /** Two functions that differ at most in their modifier names, given equivalent new names, stay equivalent. */
  lemma RenameRespects(f: Function, g: Function, nf: seq<string>, ng: seq<string>)
    requires SameUpToOrder(f, g) && multiset(nf) == multiset(ng)
    ensures SameUpToOrder(f.(modifiers := Some(nf)), g.(modifiers := Some(ng)))
  {
    assert f.(modifiers := Some(nf)).(modifiers := None) == f.(modifiers := None);
    assert g.(modifiers := Some(ng)).(modifiers := None) == g.(modifiers := None);
  }

  /** The guard transformer maps equivalent contracts to equivalent contracts. */
  lemma {:induction false} GuardRespects(a: Contract, b: Contract, k: nat)
    requires Equivalent(a, b) && k < |a.functions|
    ensures Equivalent(ReentrancyGuard.Apply(a, k), ReentrancyGuard.Apply(b, k))
  {
    var f, g := a.functions[k], b.functions[k];
    assert SameUpToOrder(f, g);
    assert f.name == f.(modifiers := None).name == g.(modifiers := None).name == g.name;
    var name := f.name;
    WithVariableRespects(a.state, b.state, ReentrancyGuard.LockVariable(name));
    WithModifierRespects(a.modifiers, b.modifiers, ReentrancyGuard.GuardModifier(name));
    WithNameRespects(f.modifiers, g.modifiers, ReentrancyGuard.GuardName(name));
    RenameRespects(f, g, WithName(f.modifiers, ReentrancyGuard.GuardName(name)), WithName(g.modifiers, ReentrancyGuard.GuardName(name)));
    RebuildRespects(a, b, k,
      WithVariable(a.state, ReentrancyGuard.LockVariable(name)), WithVariable(b.state, ReentrancyGuard.LockVariable(name)),
      WithModifier(a.modifiers, ReentrancyGuard.GuardModifier(name)), WithModifier(b.modifiers, ReentrancyGuard.GuardModifier(name)),
      f.(modifiers := Some(WithName(f.modifiers, ReentrancyGuard.GuardName(name)))),
      g.(modifiers := Some(WithName(g.modifiers, ReentrancyGuard.GuardName(name)))));
  }

  /** The owner transformer maps equivalent contracts to equivalent contracts. */
  lemma {:induction false} OwnerRespects(a: Contract, b: Contract, k: nat)
    requires Equivalent(a, b) && k < |a.functions|
    ensures Equivalent(OnlyOwner.Apply(a, k), OnlyOwner.Apply(b, k))
  {
    var f, g := a.functions[k], b.functions[k];
    assert SameUpToOrder(f, g);
    WithVariableRespects(a.state, b.state, OnlyOwner.OwnerVariable());
    WithModifierRespects(a.modifiers, b.modifiers, OnlyOwner.OwnerModifier());
    WithNameRespects(f.modifiers, g.modifiers, OnlyOwner.ModifierName);
    RenameRespects(f, g, WithName(f.modifiers, OnlyOwner.ModifierName), WithName(g.modifiers, OnlyOwner.ModifierName));
    RebuildRespects(a, b, k,
      WithVariable(a.state, OnlyOwner.OwnerVariable()), WithVariable(b.state, OnlyOwner.OwnerVariable()),
      WithModifier(a.modifiers, OnlyOwner.OwnerModifier()), WithModifier(b.modifiers, OnlyOwner.OwnerModifier()),
      f.(modifiers := Some(WithName(f.modifiers, OnlyOwner.ModifierName))),
      g.(modifiers := Some(WithName(g.modifiers, OnlyOwner.ModifierName))));
  }

  // ---------------------------------------------------------------------
  // Appends of different names commute
  // ---------------------------------------------------------------------

  lemma HasVariableAppend(vs: seq<StateVariable>, v: StateVariable, n: string)
    ensures HasVariable(vs + [v], n) <==> HasVariable(vs, n) || v.name == n
  {
    if HasVariable(vs, n) {
      var i :| 0 <= i < |vs| && vs[i].name == n;
      assert (vs + [v])[i] == vs[i];
    }
    if v.name == n {
      assert (vs + [v])[|vs|] == v;
    }
    if HasVariable(vs + [v], n) && !HasVariable(vs, n) {
      var i :| 0 <= i < |vs + [v]| && (vs + [v])[i].name == n;
      if i < |vs| {
        assert vs[i] == (vs + [v])[i];
      }
    }
  }

  lemma HasModifierAppend(ms: seq<Modifier>, m: Modifier, n: string)
    ensures HasModifier(ms + [m], n) <==> HasModifier(ms, n) || m.name == n
  {
    if HasModifier(ms, n) {
      var i :| 0 <= i < |ms| && ms[i].name == n;
      assert (ms + [m])[i] == ms[i];
    }
    if m.name == n {
      assert (ms + [m])[|ms|] == m;
    }
    if HasModifier(ms + [m], n) && !HasModifier(ms, n) {
      var i :| 0 <= i < |ms + [m]| && (ms + [m])[i].name == n;
      if i < |ms| {
        assert ms[i] == (ms + [m])[i];
      }
    }
  }

  lemma {:induction false} VariablesCommute(s: Option<StateDeclaration>, v1: StateVariable, v2: StateVariable)
    requires v1.name != v2.name
    ensures multiset(WithVariable(Some(WithVariable(s, v1)), v2).variables)
         == multiset(WithVariable(Some(WithVariable(s, v2)), v1).variables)
  {
    var vs := VariablesOf(s);
    HasVariableAppend(vs, v1, v2.name);
    HasVariableAppend(vs, v2, v1.name);
  }

  lemma {:induction false} ModifiersCommute(ms: Option<seq<Modifier>>, m1: Modifier, m2: Modifier)
    requires m1.name != m2.name
    ensures multiset(WithModifier(Some(WithModifier(ms, m1)), m2))
         == multiset(WithModifier(Some(WithModifier(ms, m2)), m1))
  {
    HasModifierAppend(ms.GetOr([]), m1, m2.name);
    HasModifierAppend(ms.GetOr([]), m2, m1.name);
  }

  lemma NamesCommute(names: Option<seq<string>>, n1: string, n2: string)
    requires n1 != n2
    ensures multiset(WithName(Some(WithName(names, n1)), n2)) == multiset(WithName(Some(WithName(names, n2)), n1))
  {
  }

  /** On one function, the owner restriction and the reentrancy guard commute up to order. */
  lemma {:induction false} GuardOwnerCommute(c: Contract, k: nat)
    requires k < |c.functions|
    ensures Equivalent(OnlyOwner.Apply(ReentrancyGuard.Apply(c, k), k), ReentrancyGuard.Apply(OnlyOwner.Apply(c, k), k))
  {
    var f := c.functions[k];
    var lock, guard, guardName := ReentrancyGuard.LockVariable(f.name), ReentrancyGuard.GuardModifier(f.name), ReentrancyGuard.GuardName(f.name);
    var owner, onlyOwner := OnlyOwner.OwnerVariable(), OnlyOwner.OwnerModifier();
    ReentrancyGuard.NamesDistinctFromOwner(f.name);
    var sx := WithVariable(Some(WithVariable(c.state, lock)), owner);
    var sy := WithVariable(Some(WithVariable(c.state, owner)), lock);
    var mx := WithModifier(Some(WithModifier(c.modifiers, guard)), onlyOwner);
    var my := WithModifier(Some(WithModifier(c.modifiers, onlyOwner)), guard);
    var nx := WithName(Some(WithName(f.modifiers, guardName)), OnlyOwner.ModifierName);
    var ny := WithName(Some(WithName(f.modifiers, OnlyOwner.ModifierName)), guardName);
    VariablesCommute(c.state, lock, owner);
    ModifiersCommute(c.modifiers, guard, onlyOwner);
    NamesCommute(f.modifiers, guardName, OnlyOwner.ModifierName);
    EquivalentReflexive(c);
    RenameRespects(f, f, nx, ny);
    RebuildRespects(c, c, k, sx, sy, mx, my, f.(modifiers := Some(nx)), f.(modifiers := Some(ny)));
    var g := ReentrancyGuard.Apply(c, k);
    var o := OnlyOwner.Apply(c, k);
    assert g.functions[k].name == f.name && o.functions[k].name == f.name;
    assert OnlyOwner.Apply(g, k) == c.(state := Some(sx), modifiers := Some(mx), functions := c.functions[k := f.(modifiers := Some(nx))]);
    assert ReentrancyGuard.Apply(o, k) == c.(state := Some(sy), modifiers := Some(my), functions := c.functions[k := f.(modifiers := Some(ny))]);
  }

  // ---------------------------------------------------------------------
  // Whole contract
  // ---------------------------------------------------------------------

  /** One step in either order, from equivalent contracts, gives equivalent contracts. */
  lemma {:induction false} StepRespects(a: Contract, b: Contract, k: nat)
    requires Equivalent(a, b) && k < |a.functions|
    ensures Equivalent(TransformFunction(a, k), OwnerFirst(b, k))
  {
    var d := a.functions[k].decorators;
    assert d == a.functions[k].(modifiers := None).decorators == b.functions[k].(modifiers := None).decorators;
    var ga := if HasDecorator(d, ReentrancyGuardDecorator) then ReentrancyGuard.Apply(a, k) else a;
    var gb := if HasDecorator(d, ReentrancyGuardDecorator) then ReentrancyGuard.Apply(b, k) else b;
    if HasDecorator(d, ReentrancyGuardDecorator) {
      GuardRespects(a, b, k);
    }
    var ta := if HasDecorator(d, OnlyOwnerDecorator) then OnlyOwner.Apply(ga, k) else ga;
    var tb := if HasDecorator(d, OnlyOwnerDecorator) then OnlyOwner.Apply(gb, k) else gb;
    if HasDecorator(d, OnlyOwnerDecorator) {
      OwnerRespects(ga, gb, k);
    }
    assert ta == TransformFunction(a, k);
    if HasDecorator(d, ReentrancyGuardDecorator) && HasDecorator(d, OnlyOwnerDecorator) {
      GuardOwnerCommute(b, k);
      EquivalentTransitive(ta, tb, OwnerFirst(b, k));
    } else {
      assert tb == OwnerFirst(b, k);
    }
  }

  lemma {:induction false} UpToRespects(c: Contract, n: nat)
    requires n <= |c.functions|
    ensures Equivalent(TransformFunctionsUpTo(c, n), OwnerFirstUpTo(c, n))
  {
    if n == 0 {
      EquivalentReflexive(c);
    } else {
      UpToRespects(c, n - 1);
      StepRespects(TransformFunctionsUpTo(c, n - 1), OwnerFirstUpTo(c, n - 1), n - 1);
    }
  }

  /**
   * Whichever of the two function transformers runs first, a contract ends
   * with the same variables, the same modifiers and, on every function, the
   * same modifier names; only their order may differ.
   */
  lemma OrderIndependent(c: Contract)
    ensures Equivalent(TransformContract(c), TransformContractOwnerFirst(c))
  {
    UpToRespects(c, |c.functions|);
  }
}
