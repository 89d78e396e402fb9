/**
 * The orchestrator (src/transformers/index.js): deep-copies the program,
 * then walks its contracts in order; a contract decorated `safe_math` marks
 * the program's metadata, and each function is guarded against reentrancy
 * and then restricted to the owner when its decorators ask for it.
 *
 * `Transformed` states the result on values, function by function and
 * contract by contract; `ApplySecurityTransformations` is the loop over the
 * copied objects, proved to produce exactly that value.
 */
module Pipeline {
  import opened Ast
  import opened Insertions
  import opened Objects
  import SafeMath
  import OnlyOwner
  import ReentrancyGuard

  const SafeMathDecorator := "safe_math"
  const ReentrancyGuardDecorator := "reentrancy_guard"
  const OnlyOwnerDecorator := "only_owner"

  /** The two function-level transformers for the `k`-th function, in the source's order. */
  function TransformFunction(c: Contract, k: nat): Contract
    requires k < |c.functions|
  {
    var decorators := c.functions[k].decorators;
    var guarded := if HasDecorator(decorators, ReentrancyGuardDecorator) then ReentrancyGuard.Apply(c, k) else c;
    if HasDecorator(decorators, OnlyOwnerDecorator) then OnlyOwner.Apply(guarded, k) else guarded
  }

  /** The contract after its first `n` functions were transformed. */
  function TransformFunctionsUpTo(c: Contract, n: nat): (r: Contract)
    requires n <= |c.functions|
    ensures |r.functions| == |c.functions|
  {
    if n == 0 then c else TransformFunction(TransformFunctionsUpTo(c, n - 1), n - 1)
  }

  /** A contract with every function transformed. */
  function TransformContract(c: Contract): Contract {
    TransformFunctionsUpTo(c, |c.functions|)
  }

  /** The metadata after the first `n` contracts were visited. */
  function MetadataUpTo(cs: seq<Contract>, n: nat, metadata: Option<Metadata>): Option<Metadata>
    requires n <= |cs|
  {
    if n == 0 then metadata
    else if HasDecorator(cs[n - 1].decorators, SafeMathDecorator) then Some(SafeMath.Mark(MetadataUpTo(cs, n - 1, metadata)))
    else MetadataUpTo(cs, n - 1, metadata)
  }

  /** The contracts after the first `n` were visited; the others are as they were. */
  function ContractsUpTo(cs: seq<Contract>, n: nat): (r: seq<Contract>)
    requires n <= |cs|
    ensures |r| == |cs|
    ensures forall j :: n <= j < |cs| ==> r[j] == cs[j]
  {
    if n == 0 then cs
    else
      var prev := ContractsUpTo(cs, n - 1);
      prev[n - 1 := TransformContract(prev[n - 1])]
  }

  /** The program the orchestrator returns for `p`. */
  function Transformed(p: Program): Program {
    Program(ContractsUpTo(p.contracts, |p.contracts|), MetadataUpTo(p.contracts, |p.contracts|, p.metadata))
  }

  /** Runs the transformers that the `k`-th function's decorators ask for, on the objects. */
  method TransformFunctionAt(ast: ProgramNode, contract: ContractNode, k: nat, func: FunctionNode) returns (r: ProgramNode)
    requires contract.Valid() && k < |contract.functions| && func == contract.functions[k]
    modifies contract`state, contract`modifiers, func`modifiers
    ensures r == ast
    ensures contract.Value() == TransformFunction(old(contract.Value()), k)
  {
    ghost var before := contract.Value();
    r := ast;
    if HasDecorator(func.decorators, ReentrancyGuardDecorator) {
      r := ReentrancyGuard.Transform(r, contract, func);
      ReplacedAt(before.functions, FunctionValues(contract.functions), k);
      assert contract.Value() == ReentrancyGuard.Apply(before, k);
    }
    ghost var guarded := contract.Value();
    if HasDecorator(func.decorators, OnlyOwnerDecorator) {
      r := OnlyOwner.Transform(r, contract, func);
      ReplacedAt(guarded.functions, FunctionValues(contract.functions), k);
      assert contract.Value() == OnlyOwner.Apply(guarded, k);
    }
  }

  /** The loop over one contract's functions, in order. */
  method TransformContractNode(ast: ProgramNode, contract: ContractNode) returns (r: ProgramNode)
    requires contract.Valid()
    modifies contract.Repr
    ensures r == ast
    ensures contract.Value() == TransformContract(old(contract.Value()))
  {
    ghost var start := contract.Value();
    r := ast;
    for k := 0 to |contract.functions|
      invariant r == ast
      invariant contract.Value() == TransformFunctionsUpTo(start, k)
    {
      r := TransformFunctionAt(r, contract, k, contract.functions[k]);
    }
  }

  /** One iteration of the loop over contracts: the contract-level transformer, then the loop over its functions. */
  method VisitContract(ast: ProgramNode, i: nat) returns (r: ProgramNode)
    requires ast.Valid() && i < |ast.contracts|
    modifies ast`metadata, ast.contracts[i].Repr
    ensures r == ast
    ensures var before := old(ast.ContractValues(|ast.contracts|));
            ast.ContractValues(|ast.contracts|) == before[i := TransformContract(before[i])]
    ensures ast.metadata == if HasDecorator(ast.contracts[i].decorators, SafeMathDecorator)
                            then Some(SafeMath.Mark(old(ast.metadata))) else old(ast.metadata)
  {
    var contract := ast.contracts[i];
    r := ast;
    if HasDecorator(contract.decorators, SafeMathDecorator) {
      r := SafeMath.Transform(r, contract);
    }
    r := TransformContractNode(r, contract);
    forall j | 0 <= j < |ast.contracts| && j != i
      ensures ast.contracts[j].Value() == old(ast.contracts[j].Value())
    {
      assert if i < j then contract.Repr !! ast.contracts[j].Repr else ast.contracts[j].Repr !! contract.Repr;
    }
    ReplacedAt(old(ast.ContractValues(|ast.contracts|)), ast.ContractValues(|ast.contracts|), i);
  }

  /**
   * `ContractsUpTo` with the per-contract transformation as a parameter. The
   * loop over contracts is specified with it, passing `TransformContract`
   * itself (`TransformsContracts`), so that its invariant never unfolds the
   * transformation of a whole contract; `ContractsMappedUpTo` gives back
   * `ContractsUpTo`.
   */
  function ContractsMapped(cs: seq<Contract>, n: nat, f: Contract -> Contract): (r: seq<Contract>)
    requires n <= |cs|
    ensures |r| == |cs|
    ensures forall j :: n <= j < |cs| ==> r[j] == cs[j]
  {
    if n == 0 then cs
    else
      var prev := ContractsMapped(cs, n - 1, f);
      prev[n - 1 := f(prev[n - 1])]
  }

  /** `f` is the transformation of one contract. */
  ghost predicate TransformsContracts(f: Contract -> Contract) {
    forall c {:trigger TransformContract(c)} :: f(c) == TransformContract(c)
  }

  lemma {:induction false} ContractsMappedUpTo(cs: seq<Contract>, n: nat, f: Contract -> Contract)
    requires n <= |cs|
    requires TransformsContracts(f)
    ensures ContractsMapped(cs, n, f) == ContractsUpTo(cs, n)
  {
    if n > 0 {
      ContractsMappedUpTo(cs, n - 1, f);
      var prev := ContractsUpTo(cs, n - 1);
      assert f(prev[n - 1]) == TransformContract(prev[n - 1]);
    }
  }

  /** `VisitContract` as a step of the loop over `p`'s contracts: `i` contracts visited become `i + 1`. */
  method VisitNext(node: ProgramNode, ghost p: Program, i: nat, ghost f: Contract -> Contract)
    requires TransformsContracts(f)
    requires i < |p.contracts| && node.ValuesAre(ContractsMapped(p.contracts, i, f))
    requires node.metadata == MetadataUpTo(p.contracts, i, p.metadata)
    modifies node`metadata, node.Repr
    ensures node.ValuesAre(ContractsMapped(p.contracts, i + 1, f))
    ensures node.metadata == MetadataUpTo(p.contracts, i + 1, p.metadata)
  {
    ghost var before := node.ContractValues(|node.contracts|);
    assert before[i] == p.contracts[i];
    assert node.contracts[i].decorators == p.contracts[i].decorators;
    var r := VisitContract(node, i);
    assert f(before[i]) == TransformContract(before[i]);
  }

  /**
   * `applySecurityTransformations(ast)`: deep-copies the program and runs the
   * transformers over the copy. The result is the value `Transformed(ast)`
   * and the caller's `ast` is untouched (it is a value here).
   */
  method ApplySecurityTransformations(ast: Program) returns (r: ProgramNode)
    ensures r.Valid() && r.Value() == Transformed(ast)
  {
    var transformedAst := new ProgramNode.Copy(ast);
    VisitContracts(transformedAst, ast, TransformContract);
    ContractsMappedUpTo(ast.contracts, |ast.contracts|, TransformContract);
    assert transformedAst.Value() == Transformed(ast);
    r := transformedAst;
  }

  /** The loop of `applySecurityTransformations` over the copied contracts, in order. */
  method VisitContracts(node: ProgramNode, ghost p: Program, ghost f: Contract -> Contract)
    requires TransformsContracts(f)
    requires node.Valid() && node.Value() == p
    modifies node`metadata, node.Repr
    ensures node.Valid()
    ensures node.ContractValues(|node.contracts|) == ContractsMapped(p.contracts, |p.contracts|, f)
    ensures node.metadata == MetadataUpTo(p.contracts, |p.contracts|, p.metadata)
  {
    assert |node.contracts| == |p.contracts|;
    for i := 0 to |node.contracts|
      invariant node.ValuesAre(ContractsMapped(p.contracts, i, f))
      invariant node.metadata == MetadataUpTo(p.contracts, i, p.metadata)
    {
      VisitNext(node, p, i, f);
    }
    node.ValuesAt(ContractsMapped(p.contracts, |p.contracts|, f));
  }
}
