/**
 * The AST as the transformers see it: mutable objects. The transformers
 * receive the program, one contract object and one function object, and
 * change the contract's state section and modifier list and the function's
 * modifier-name list in place; every other field keeps its value, so it is a
 * `const` here. `Value()` reads an object back as an AST value. The `Copy`
 * constructors are the deep copy the pipeline makes first
 * (src/transformers/index.js:15): fresh objects that share nothing.
 */
module Objects {
  import opened Ast

  class FunctionNode {
    const name: string
    const parameters: seq<Parameter>
    const returnType: Option<Type>
    const decorators: seq<Decorator>
    const body: seq<Statement>
    var modifiers: Option<seq<string>>

    function Value(): Function
      reads this
    {
      Function(name, parameters, returnType, decorators, body, modifiers)
    }

    constructor Copy(f: Function)
      ensures Value() == f
    {
      name, parameters, returnType := f.name, f.parameters, f.returnType;
      decorators, body, modifiers := f.decorators, f.body, f.modifiers;
    }
  }

  /** The values of a sequence of function objects. */
  function FunctionValues(fs: seq<FunctionNode>): (vs: seq<Function>)
    reads fs
    ensures |vs| == |fs|
    ensures forall k :: 0 <= k < |fs| ==> vs[k] == fs[k].Value()
  {
    if fs == [] then [] else FunctionValues(fs[..|fs| - 1]) + [fs[|fs| - 1].Value()]
  }

  class ContractNode {
    const name: string
    const decorators: seq<Decorator>
    var state: Option<StateDeclaration>
    var modifiers: Option<seq<Modifier>>
    const functions: seq<FunctionNode>
    const events: seq<Event>
    /** This object and its function objects. */
    ghost const Repr: set<object>

    /** `Repr` holds the function objects, and no function object occurs twice. */
    ghost predicate Valid() {
      this in Repr
      && (forall k :: 0 <= k < |functions| ==> functions[k] in Repr)
      && (forall i, j :: 0 <= i < j < |functions| ==> functions[i] != functions[j])
    }

    function Value(): Contract
      requires Valid()
      reads Repr
    {
      Contract(name, decorators, state, modifiers, FunctionValues(functions), events)
    }

    constructor Copy(c: Contract)
      ensures Valid() && Value() == c && fresh(Repr)
    {
      var fs := CopyFunctions(c.functions);
      name, decorators, state, modifiers := c.name, c.decorators, c.state, c.modifiers;
      functions, events := fs, c.events;
      Repr := {this} + set k | 0 <= k < |fs| :: fs[k];
    }
  }

  /** Fresh, distinct function objects holding the given values. */
  method CopyFunctions(values: seq<Function>) returns (fs: seq<FunctionNode>)
    ensures FunctionValues(fs) == values
    ensures forall k :: 0 <= k < |fs| ==> fresh(fs[k])
    ensures forall k, l :: 0 <= k < l < |fs| ==> fs[k] != fs[l]
  {
    fs := [];
    for i := 0 to |values|
      invariant |fs| == i
      invariant forall k :: 0 <= k < i ==> fresh(fs[k])
      invariant forall k, l :: 0 <= k < l < i ==> fs[k] != fs[l]
      invariant forall k :: 0 <= k < i ==> fs[k].Value() == values[k]
    {
      var f := new FunctionNode.Copy(values[i]);
      fs := fs + [f];
    }
  }

  class ProgramNode {
    const contracts: seq<ContractNode>
    var metadata: Option<Metadata>
    /** The objects of every contract. */
    ghost const Repr: set<object>

    /** Every contract is valid and the contracts share no object. */
    ghost predicate Valid() {
      this !in Repr
      && (forall i :: 0 <= i < |contracts| ==> contracts[i].Valid() && contracts[i].Repr <= Repr)
      && (forall i, j :: 0 <= i < j < |contracts| ==> contracts[i].Repr !! contracts[j].Repr)
    }

    /** The values of the first `n` contract objects. */
    function ContractValues(n: nat): (vs: seq<Contract>)
      requires Valid() && n <= |contracts|
      reads Repr
      ensures |vs| == n
      ensures forall i :: 0 <= i < n ==> vs[i] == contracts[i].Value()
    {
      if n == 0 then [] else ContractValues(n - 1) + [contracts[n - 1].Value()]
    }

    /** The contract objects hold the values `vs`, one by one. */
    ghost predicate ValuesAre(vs: seq<Contract>)
      reads Repr
    {
      Valid() && |vs| == |contracts|
      && forall j :: 0 <= j < |contracts| ==> contracts[j].Value() == vs[j]
    }

    /** The values of the contracts, read one by one, are the contract values of the program. */
    lemma ValuesAt(vs: seq<Contract>)
      requires ValuesAre(vs)
      ensures ContractValues(|contracts|) == vs
    {
    }

    function Value(): Program
      requires Valid()
      reads this, Repr
    {
      Program(ContractValues(|contracts|), metadata)
    }

    constructor Copy(p: Program)
      ensures Valid() && Value() == p && fresh(Repr)
    {
      var cs: seq<ContractNode> := [];
      ghost var repr: set<object> := {};
      for i := 0 to |p.contracts|
        invariant |cs| == i && fresh(repr)
        invariant forall j :: 0 <= j < i ==> cs[j].Valid() && cs[j].Repr <= repr && cs[j].Value() == p.contracts[j]
        invariant forall j, l :: 0 <= j < l < i ==> cs[j].Repr !! cs[l].Repr
      {
        var c := new ContractNode.Copy(p.contracts[i]);
        cs := cs + [c];
        repr := repr + c.Repr;
      }
      contracts, metadata, Repr := cs, p.metadata, repr;
    }
  }
}
