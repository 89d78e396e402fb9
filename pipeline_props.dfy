/**
 * What the orchestrator of src/transformers/index.js guarantees, stated on
 * the value `Transformed(p)` that `ApplySecurityTransformations` is proved
 * to build.
 */
module PipelineProps {
  import opened Ast
  import opened Insertions
  import opened Pipeline
  import SafeMath
  import OnlyOwner
  import ReentrancyGuard

  // ---------------------------------------------------------------------
  // Contract-level results and the metadata
  // ---------------------------------------------------------------------

  /** Some contract of `cs` is decorated `safe_math`. */
  predicate AnySafeMath(cs: seq<Contract>) {
    exists i :: 0 <= i < |cs| && HasDecorator(cs[i].decorators, SafeMathDecorator)
  }

  /** Visiting contracts marks the metadata once if any of them asks for it, and leaves it alone otherwise. */
  lemma {:induction false} MetadataUpToClosedForm(cs: seq<Contract>, n: nat, metadata: Option<Metadata>)
    requires n <= |cs|
    ensures MetadataUpTo(cs, n, metadata) == if AnySafeMath(cs[..n]) then Some(SafeMath.Mark(metadata)) else metadata
  {
    if n > 0 {
      MetadataUpToClosedForm(cs, n - 1, metadata);
      assert cs[..n][..n - 1] == cs[..n - 1];
      if HasDecorator(cs[n - 1].decorators, SafeMathDecorator) {
        assert cs[..n][n - 1] == cs[n - 1];
        SafeMath.MarkIdempotent(metadata);
      } else if AnySafeMath(cs[..n]) {
        var i :| 0 <= i < n && HasDecorator(cs[..n][i].decorators, SafeMathDecorator);
        assert cs[..n - 1][i] == cs[..n][i];
      }
    }
  }

  /** Every visited contract is transformed on its own; the others are as they were. */
  lemma {:induction false} ContractsUpToClosedForm(cs: seq<Contract>, n: nat)
    requires n <= |cs|
    ensures forall j :: 0 <= j < n ==> ContractsUpTo(cs, n)[j] == TransformContract(cs[j])
  {
    if n > 0 {
      ContractsUpToClosedForm(cs, n - 1);
    }
  }

  /**
   * The orchestrator's result: each contract transformed on its own, and the
   * metadata marked by SafeMath if and only if some contract is decorated
   * `safe_math`.
   */
  lemma TransformedClosedForm(p: Program)
    ensures |Transformed(p).contracts| == |p.contracts|
    ensures forall j :: 0 <= j < |p.contracts| ==> Transformed(p).contracts[j] == TransformContract(p.contracts[j])
    ensures Transformed(p).metadata == if AnySafeMath(p.contracts) then Some(SafeMath.Mark(p.metadata)) else p.metadata
  {
    ContractsUpToClosedForm(p.contracts, |p.contracts|);
    MetadataUpToClosedForm(p.contracts, |p.contracts|, p.metadata);
    assert p.contracts[..|p.contracts|] == p.contracts;
  }

  /** The SafeMath keys are set after the pipeline exactly when some contract asks for it or they were set before. */
  lemma SafeMathVersion(p: Program)
    ensures var m := Transformed(p).metadata;
      AnySafeMath(p.contracts) ==> m.Some? && SafeMath.SolidityVersionKey in m.value && SafeMath.UsesSafeMathKey in m.value
                                   && m.value[SafeMath.SolidityVersionKey] == MetaString(SafeMath.TargetVersion)
                                   && m.value[SafeMath.UsesSafeMathKey] == MetaBool(true)
    ensures !AnySafeMath(p.contracts) ==> Transformed(p).metadata == p.metadata
  {
    TransformedClosedForm(p);
  }

  // ---------------------------------------------------------------------
  // One function
  // ---------------------------------------------------------------------

  /** Neither function-level decorator is present. */
  predicate Undecorated(f: Function) {
    !HasDecorator(f.decorators, ReentrancyGuardDecorator) && !HasDecorator(f.decorators, OnlyOwnerDecorator)
  }

  /**
   * `c` grew into `r`: the same contract with, at most, entries appended to
   * the state variables, the modifiers and the functions' modifier names.
   */
  predicate Grows(c: Contract, r: Contract) {
    SameShape(c, r)
    && (c.state.Some? ==> r.state.Some?) && Variables(c) <= Variables(r)
    && (c.modifiers.Some? ==> r.modifiers.Some?) && c.modifiers.GetOr([]) <= r.modifiers.GetOr([])
    && forall j :: 0 <= j < |c.functions| ==>
         (c.functions[j].modifiers.Some? ==> r.functions[j].modifiers.Some?)
         && c.functions[j].modifiers.GetOr([]) <= r.functions[j].modifiers.GetOr([])
  }

  lemma GrowsTransitive(a: Contract, b: Contract, c: Contract)
    requires Grows(a, b) && Grows(b, c)
    ensures Grows(a, c)
  {
  }

  lemma {:induction false} GuardGrows(c: Contract, k: nat)
    requires k < |c.functions|
    ensures Grows(c, ReentrancyGuard.Apply(c, k))
  {
    ReentrancyGuard.ApplyKeepsShape(c, k);
    ReentrancyGuard.ApplyOnlyAppends(c, k);
  }

  lemma {:induction false} OwnerGrows(c: Contract, k: nat)
    requires k < |c.functions|
    ensures Grows(c, OnlyOwner.Apply(c, k))
  {
    OnlyOwner.ApplyKeepsShape(c, k);
    OnlyOwner.ApplyOnlyAppends(c, k);
  }

  /** The `k`-th function's step only appends, and changes no other function. */
  lemma {:induction false} TransformFunctionGrows(c: Contract, k: nat)
    requires k < |c.functions|
    ensures Grows(c, TransformFunction(c, k))
    ensures forall j :: 0 <= j < |c.functions| && j != k ==> TransformFunction(c, k).functions[j] == c.functions[j]
  {
    var decorators := c.functions[k].decorators;
    var guarded := if HasDecorator(decorators, ReentrancyGuardDecorator) then ReentrancyGuard.Apply(c, k) else c;
    if HasDecorator(decorators, ReentrancyGuardDecorator) {
      GuardGrows(c, k);
      ReentrancyGuard.ApplyOnlyAppends(c, k);
    }
    if HasDecorator(decorators, OnlyOwnerDecorator) {
      OwnerGrows(guarded, k);
      OnlyOwner.ApplyOnlyAppends(guarded, k);
      GrowsTransitive(c, guarded, OnlyOwner.Apply(guarded, k));
    }
  }

  /** A function without either decorator leaves the contract as it is. */
  lemma UndecoratedStep(c: Contract, k: nat)
    requires k < |c.functions| && Undecorated(c.functions[k])
    ensures TransformFunction(c, k) == c
  {
  }

  /**
   * A function decorated with both, whose modifier list names neither its
   * guard nor `onlyOwner`, ends with its guard and then `onlyOwner` appended,
   * in that order.
   */
  lemma {:induction false} BothDecoratorsOrder(c: Contract, k: nat)
    requires k < |c.functions|
    requires HasDecorator(c.functions[k].decorators, ReentrancyGuardDecorator)
    requires HasDecorator(c.functions[k].decorators, OnlyOwnerDecorator)
    requires var before := c.functions[k].modifiers.GetOr([]);
      ReentrancyGuard.GuardName(c.functions[k].name) !in before && OnlyOwner.ModifierName !in before
    ensures TransformFunction(c, k).functions[k].modifiers
            == Some(c.functions[k].modifiers.GetOr([]) + [ReentrancyGuard.GuardName(c.functions[k].name), OnlyOwner.ModifierName])
  {
    var name := c.functions[k].name;
    var before := c.functions[k].modifiers.GetOr([]);
    var guarded := ReentrancyGuard.Apply(c, k);
    ReentrancyGuard.ApplyOnlyAppends(c, k);
    assert guarded.functions[k].modifiers.value == before + [ReentrancyGuard.GuardName(name)];
    ReentrancyGuard.NamesDistinctFromOwner(name);
    assert OnlyOwner.ModifierName !in before + [ReentrancyGuard.GuardName(name)];
    assert guarded.functions[k].modifiers.GetOr([]) == before + [ReentrancyGuard.GuardName(name)];
    OnlyOwner.ApplyOnlyAppends(guarded, k);
    assert TransformFunction(c, k) == OnlyOwner.Apply(guarded, k);
    assert OnlyOwner.Apply(guarded, k).functions[k].modifiers.Some?;
    assert before + [ReentrancyGuard.GuardName(name), OnlyOwner.ModifierName]
        == before + [ReentrancyGuard.GuardName(name)] + [OnlyOwner.ModifierName];
  }

  // ---------------------------------------------------------------------
  // Whole contract: undecorated functions and idempotence
  // ---------------------------------------------------------------------

  /** An undecorated function comes out of the pipeline exactly as it went in. */
  lemma {:induction false} UndecoratedKept(c: Contract, j: nat, n: nat)
    requires j < |c.functions| && Undecorated(c.functions[j]) && n <= |c.functions|
    ensures TransformFunctionsUpTo(c, n).functions[j] == c.functions[j]
  {
    if n > 0 {
      var prev := TransformFunctionsUpTo(c, n - 1);
      UndecoratedKept(c, j, n - 1);
      TransformFunctionGrows(prev, n - 1);
    }
  }

  lemma UndecoratedFunctionUnchanged(p: Program, i: nat, j: nat)
    requires i < |p.contracts| && j < |p.contracts[i].functions| && Undecorated(p.contracts[i].functions[j])
    ensures var c := Transformed(p).contracts[i];
      j < |c.functions| && c.functions[j] == p.contracts[i].functions[j]
  {
    TransformedClosedForm(p);
    UndecoratedKept(p.contracts[i], j, |p.contracts[i].functions|);
  }

  /** What `reentrancy_guard` on the `k`-th function asks for is in place: its lock, its guard, the guard's name. */
  predicate GuardInPlace(c: Contract, k: nat)
    requires k < |c.functions|
  {
    var f := c.functions[k];
    HasDecorator(f.decorators, ReentrancyGuardDecorator) ==>
      c.state.Some? && HasVariable(Variables(c), ReentrancyGuard.LockName(f.name))
      && c.modifiers.Some? && HasModifier(c.modifiers.value, ReentrancyGuard.GuardName(f.name))
      && f.modifiers.Some? && ReentrancyGuard.GuardName(f.name) in f.modifiers.value
  }

  /** What `only_owner` on the `k`-th function asks for is in place: the owner, `onlyOwner`, and its name on the function. */
  predicate OwnerInPlace(c: Contract, k: nat)
    requires k < |c.functions|
  {
    var f := c.functions[k];
    HasDecorator(f.decorators, OnlyOwnerDecorator) ==>
      c.state.Some? && HasVariable(Variables(c), OnlyOwner.OwnerVarName)
      && c.modifiers.Some? && HasModifier(c.modifiers.value, OnlyOwner.ModifierName)
      && f.modifiers.Some? && OnlyOwner.ModifierName in f.modifiers.value
  }

  /** Everything the decorators of the `k`-th function ask for is already in place. */
  predicate Settled(c: Contract, k: nat)
    requires k < |c.functions|
  {
    GuardInPlace(c, k) && OwnerInPlace(c, k)
  }

  lemma HasVariablePrefix(vs: seq<StateVariable>, ws: seq<StateVariable>, n: string)
    requires vs <= ws && HasVariable(vs, n)
    ensures HasVariable(ws, n)
  {
    var i :| 0 <= i < |vs| && vs[i].name == n;
    assert ws[i] == vs[i];
  }

  lemma HasModifierPrefix(ms: seq<Modifier>, ns: seq<Modifier>, n: string)
    requires ms <= ns && HasModifier(ms, n)
    ensures HasModifier(ns, n)
  {
    var i :| 0 <= i < |ms| && ms[i].name == n;
    assert ns[i] == ms[i];
  }

  /** A guard in place stays in place while the contract grows. */
  lemma {:induction false} GuardInPlaceGrows(c: Contract, r: Contract, j: nat)
    requires j < |c.functions| && GuardInPlace(c, j) && Grows(c, r)
    ensures GuardInPlace(r, j)
  {
    var f := c.functions[j];
    assert r.functions[j].name == f.name && r.functions[j].decorators == f.decorators;
    if HasDecorator(f.decorators, ReentrancyGuardDecorator) {
      HasVariablePrefix(Variables(c), Variables(r), ReentrancyGuard.LockName(f.name));
      HasModifierPrefix(c.modifiers.value, r.modifiers.value, ReentrancyGuard.GuardName(f.name));
      assert f.modifiers.value <= r.functions[j].modifiers.value;
    }
  }

  /** The owner in place stays in place while the contract grows. */
  lemma {:induction false} OwnerInPlaceGrows(c: Contract, r: Contract, j: nat)
    requires j < |c.functions| && OwnerInPlace(c, j) && Grows(c, r)
    ensures OwnerInPlace(r, j)
  {
    var f := c.functions[j];
    assert r.functions[j].name == f.name && r.functions[j].decorators == f.decorators;
    if HasDecorator(f.decorators, OnlyOwnerDecorator) {
      HasVariablePrefix(Variables(c), Variables(r), OnlyOwner.OwnerVarName);
      HasModifierPrefix(c.modifiers.value, r.modifiers.value, OnlyOwner.ModifierName);
      assert f.modifiers.value <= r.functions[j].modifiers.value;
    }
  }

  /** What is in place stays in place while the contract grows. */
  lemma SettledGrows(c: Contract, r: Contract, j: nat)
    requires j < |c.functions| && Settled(c, j) && Grows(c, r)
    ensures Settled(r, j)
  {
    GuardInPlaceGrows(c, r, j);
    OwnerInPlaceGrows(c, r, j);
  }

  /** After its step, a function's decorators are satisfied. */
  lemma {:induction false} TransformFunctionSettles(c: Contract, k: nat)
    requires k < |c.functions|
    ensures Settled(TransformFunction(c, k), k)
  {
    var f := c.functions[k];
    var guarded := if HasDecorator(f.decorators, ReentrancyGuardDecorator) then ReentrancyGuard.Apply(c, k) else c;
    if HasDecorator(f.decorators, ReentrancyGuardDecorator) {
      ReentrancyGuard.ApplyEstablishes(c, k);
    }
    assert guarded.functions[k].decorators == f.decorators && guarded.functions[k].name == f.name;
    assert GuardInPlace(guarded, k);
    if HasDecorator(f.decorators, OnlyOwnerDecorator) {
      var r := OnlyOwner.Apply(guarded, k);
      OnlyOwner.ApplyEstablishes(guarded, k);
      OwnerGrows(guarded, k);
      assert OwnerInPlace(r, k);
      if HasDecorator(f.decorators, ReentrancyGuardDecorator) {
        GuardInPlaceGrows(guarded, r, k);
      }
    }
  }

  /** A settled function's step changes nothing. */
  lemma {:induction false} SettledStepFixed(c: Contract, k: nat)
    requires k < |c.functions| && Settled(c, k)
    ensures TransformFunction(c, k) == c
  {
    var f := c.functions[k];
    if HasDecorator(f.decorators, ReentrancyGuardDecorator) || HasDecorator(f.decorators, OnlyOwnerDecorator) {
      assert c.functions[k := f.(modifiers := Some(f.modifiers.value))] == c.functions;
      assert c.state == Some(StateDeclaration(Variables(c)));
    }
    if HasDecorator(f.decorators, ReentrancyGuardDecorator) {
      assert ReentrancyGuard.Apply(c, k) == c;
    }
    if HasDecorator(f.decorators, OnlyOwnerDecorator) {
      assert OnlyOwner.Apply(c, k) == c;
    }
  }

  /** After the first `n` steps the first `n` functions are settled, and the contract only grew. */
  lemma {:induction false} UpToSettles(c: Contract, n: nat)
    requires n <= |c.functions|
    ensures Grows(c, TransformFunctionsUpTo(c, n))
    ensures forall j :: 0 <= j < n ==> Settled(TransformFunctionsUpTo(c, n), j)
  {
    if n == 0 {
      GrowsReflexive(c);
    } else {
      UpToSettles(c, n - 1);
      SettlesStep(c, n - 1, n);
    }
  }

  lemma GrowsReflexive(c: Contract)
    ensures Grows(c, c)
  {
    assert forall j :: 0 <= j < |c.functions| ==> c.functions[j] == c.functions[j].(modifiers := c.functions[j].modifiers);
  }

  /** Step `k` settles function `k`, keeps the earlier ones settled, and the contract only grows. */
  lemma SettlesStep(c: Contract, k: nat, n: nat)
    requires n == k + 1 <= |c.functions|
    requires Grows(c, TransformFunctionsUpTo(c, k))
    requires forall j :: 0 <= j < k ==> Settled(TransformFunctionsUpTo(c, k), j)
    ensures Grows(c, TransformFunctionsUpTo(c, n))
    ensures forall j :: 0 <= j < n ==> Settled(TransformFunctionsUpTo(c, n), j)
  {
    var prev := TransformFunctionsUpTo(c, k);
    var r := TransformFunction(prev, k);
    assert TransformFunctionsUpTo(c, n) == r;
    TransformFunctionGrows(prev, k);
    GrowsTransitive(c, prev, r);
    TransformFunctionSettles(prev, k);
    forall j | 0 <= j < n ensures Settled(r, j) {
      if j < k {
        SettledGrows(prev, r, j);
      }
    }
  }

  /** Steps over settled functions change nothing. */
  lemma {:induction false} SettledUpToFixed(c: Contract, n: nat)
    requires n <= |c.functions|
    requires forall j :: 0 <= j < |c.functions| ==> Settled(c, j)
    ensures TransformFunctionsUpTo(c, n) == c
  {
    if n > 0 {
      SettledUpToFixed(c, n - 1);
      SettledStepFixed(c, n - 1);
    }
  }

  /** Transforming a transformed contract changes nothing. */
  lemma TransformContractIdempotent(c: Contract)
    ensures TransformContract(TransformContract(c)) == TransformContract(c)
  {
    var r := TransformContract(c);
    UpToSettles(c, |c.functions|);
    SettledUpToFixed(r, |r.functions|);
  }

  /** Running the pipeline on its own output gives the same program. */
  lemma PipelineIdempotent(p: Program)
    ensures Transformed(Transformed(p)) == Transformed(p)
  {
    var q := Transformed(p);
    TransformedClosedForm(p);
    TransformedClosedForm(q);
    forall j | 0 <= j < |p.contracts|
      ensures q.contracts[j].decorators == p.contracts[j].decorators
      ensures Transformed(q).contracts[j] == q.contracts[j]
    {
      UpToSettles(p.contracts[j], |p.contracts[j].functions|);
      TransformContractIdempotent(p.contracts[j]);
    }
    assert AnySafeMath(q.contracts) == AnySafeMath(p.contracts) by {
      if AnySafeMath(p.contracts) {
        var i :| 0 <= i < |p.contracts| && HasDecorator(p.contracts[i].decorators, SafeMathDecorator);
        assert HasDecorator(q.contracts[i].decorators, SafeMathDecorator);
      }
      if AnySafeMath(q.contracts) {
        var i :| 0 <= i < |q.contracts| && HasDecorator(q.contracts[i].decorators, SafeMathDecorator);
        assert HasDecorator(p.contracts[i].decorators, SafeMathDecorator);
      }
    }
    if AnySafeMath(p.contracts) {
      SafeMath.MarkIdempotent(p.metadata);
    }
    assert Transformed(q).contracts == q.contracts;
  }
}
