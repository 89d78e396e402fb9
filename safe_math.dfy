/**
 * The transformer for the contract decorator `safe_math`
 * (src/transformers/SafeMathTransformer.js). It rewrites no statement: it
 * records in the program's metadata that overflow checks are wanted and that
 * the target is a compiler version with built-in checks.
 */
module SafeMath {
  import opened Ast
  import opened Objects

  const UsesSafeMathKey := "usesSafeMath"
  const SolidityVersionKey := "solidityVersion"
  const TargetVersion := "^0.8.0"

  /** The metadata after the transformer: both keys set, every other key as it was. */
  function Mark(metadata: Option<Metadata>): (m: Metadata)
    ensures m.Keys == metadata.GetOr(map[]).Keys + {UsesSafeMathKey, SolidityVersionKey}
    ensures m[UsesSafeMathKey] == MetaBool(true)
    ensures m[SolidityVersionKey] == MetaString(TargetVersion)
    ensures forall k :: k in metadata.GetOr(map[]) && k != UsesSafeMathKey && k != SolidityVersionKey
                        ==> m[k] == metadata.GetOr(map[])[k]
  {
    metadata.GetOr(map[])[UsesSafeMathKey := MetaBool(true)][SolidityVersionKey := MetaString(TargetVersion)]
  }

  /** Marking twice is marking once. */
  lemma MarkIdempotent(metadata: Option<Metadata>)
    ensures Mark(Some(Mark(metadata))) == Mark(metadata)
  {
  }

  /**
   * `SafeMathTransformer.transform(ast, contract)`: creates the metadata when
   * it is missing, then sets the two keys. Nothing but the program's metadata
   * changes; the contract is only named in a log message.
   */
  method Transform(ast: ProgramNode, contract: ContractNode) returns (r: ProgramNode)
    modifies ast`metadata
    ensures r == ast
    ensures ast.metadata == Some(Mark(old(ast.metadata)))
  {
    if ast.metadata.None? {
      ast.metadata := Some(map[]);
    }
    ast.metadata := Some(ast.metadata.value[UsesSafeMathKey := MetaBool(true)]);
    ast.metadata := Some(ast.metadata.value[SolidityVersionKey := MetaString(TargetVersion)]);
    r := ast;
  }
}
