/**
 * The SimpleToken contract that src/astBuilder.js builds by hand, as a
 * constant, and what the security pipeline and the generator make of it.
 */
module SimpleToken {
  import opened Ast
  import opened Pipeline
  import OnlyOwner
  import ReentrancyGuard
  import SafeMath
  import Generator
  import Text

  const Address := ScalarType("address")
  const Uint256 := ScalarType("uint256")

  const Owner := StateVariable("owner", Address, Some(Identifier("msg.sender")))
  const Balances := StateVariable("balances", Type("mapping", Some(Address), Some(Uint256)), None)
  const TotalSupply := StateVariable("totalSupply", Uint256, Some(Literal("1000000", "number")))

  const ToAndAmount := [Parameter("to", Address), Parameter("amount", Uint256)]

  /** `mint(to, amount)`: credits `to`, grows the supply and emits `Transfer` from the zero address. */
  const Mint := NewFunction("mint", Some(ToAndAmount), None, Some([Decorator("only_owner")]), Some([
    AssignmentStatement(LValue("balances", [Identifier("to")]), "+=", Identifier("amount")),
    AssignmentStatement(Identifier("totalSupply"), "+=", Identifier("amount")),
    NewEmitStatement("Transfer", Some([Literal("address(0)", "address"), Identifier("to"), Identifier("amount")]))
  ]))

  /** `transfer(to, amount) returns (bool)`: checks the sender's balance, moves it and emits `Transfer`. */
  const Transfer := NewFunction("transfer", Some(ToAndAmount), Some(ScalarType("bool")), Some([Decorator("reentrancy_guard")]), Some([
    RequireStatement(BinaryExpression(LValue("balances", [Identifier("msg.sender")]), ">=", Identifier("amount")),
                     Some(Literal("\"Insufficient balance\"", "string"))),
    AssignmentStatement(LValue("balances", [Identifier("msg.sender")]), "-=", Identifier("amount")),
    AssignmentStatement(LValue("balances", [Identifier("to")]), "+=", Identifier("amount")),
    NewEmitStatement("Transfer", Some([Identifier("msg.sender"), Identifier("to"), Identifier("amount")])),
    ReturnStatement(Some(Literal("true", "boolean")))
  ]))

  const TransferEvent := NewEvent("Transfer", Some([Parameter("from", Address), Parameter("to", Address), Parameter("amount", Uint256)]))

  /** `buildSimpleTokenContract`. */
  const Token := NewContract("SimpleToken", Some([Decorator("safe_math")]),
    Some(NewStateDeclaration(Some([Owner, Balances, TotalSupply]))), Some([Mint, Transfer]), Some([TransferEvent]))

  /** `visitProgram`: a program of the one contract. */
  const TokenProgram := NewProgram(Some([Token]))

  /**
   * The transformed contract: `mint` is guarded by the shared `onlyOwner`,
   * whose `owner` variable is already declared and so not added again;
   * `transfer` by its own `nonReentrant_transfer`, whose lock variable is
   * appended after the three declared ones. Nothing else changes.
   */
  const GuardedToken := Token.(
    state := Some(StateDeclaration([Owner, Balances, TotalSupply, ReentrancyGuard.LockVariable("transfer")])),
    modifiers := Some([OnlyOwner.OwnerModifier(), ReentrancyGuard.GuardModifier("transfer")]),
    functions := [Mint.(modifiers := Some(["onlyOwner"])), Transfer.(modifiers := Some(["nonReentrant_transfer"]))])

  const OwnedToken := Token.(
    modifiers := Some([OnlyOwner.OwnerModifier()]),
    functions := [Mint.(modifiers := Some(["onlyOwner"])), Transfer])

  /** `mint` only asks for `only_owner`, and `owner` is declared already. */
  lemma MintStep()
    ensures TransformFunction(Token, 0) == OwnedToken
  {
    var decorators := Token.functions[0].decorators;
    assert decorators == [Decorator("only_owner")];
    assert HasDecorator(decorators, OnlyOwnerDecorator) by {
      assert decorators[0].name == OnlyOwnerDecorator;
    }
    assert !HasDecorator(decorators, ReentrancyGuardDecorator);
    var vs := [Owner, Balances, TotalSupply];
    assert Token.state == Some(StateDeclaration(vs));
    assert Insertions.HasVariable(vs, OnlyOwner.OwnerVarName) by {
      assert vs[0].name == OnlyOwner.OwnerVarName;
    }
    assert Insertions.WithVariable(Token.state, OnlyOwner.OwnerVariable()) == StateDeclaration(vs);
    assert Insertions.WithModifier(None, OnlyOwner.OwnerModifier()) == [OnlyOwner.OwnerModifier()];
    assert Insertions.WithName(None, OnlyOwner.ModifierName) == ["onlyOwner"];
  }

  /** `transfer` only asks for `reentrancy_guard`; its lock and guard are new names. */
  lemma TransferStep()
    ensures TransformFunction(OwnedToken, 1) == GuardedToken
  {
    TransferDecorators();
    LockAppended();
    GuardAppended();
    assert Transfer.name == "transfer" && Transfer.modifiers == None;
    assert ReentrancyGuard.GuardName("transfer") == "nonReentrant_transfer";
    assert Insertions.WithName(None, "nonReentrant_transfer") == ["nonReentrant_transfer"];
    var r := ReentrancyGuard.Apply(OwnedToken, 1);
    assert r.functions == GuardedToken.functions;
  }

  lemma TransferDecorators()
    ensures var ds := OwnedToken.functions[1].decorators;
      HasDecorator(ds, ReentrancyGuardDecorator) && !HasDecorator(ds, OnlyOwnerDecorator)
  {
    var ds := OwnedToken.functions[1].decorators;
    assert ds == [Decorator("reentrancy_guard")];
    assert ds[0].name == ReentrancyGuardDecorator;
  }

  lemma LockAppended()
    ensures Insertions.WithVariable(OwnedToken.state, ReentrancyGuard.LockVariable("transfer"))
      == StateDeclaration([Owner, Balances, TotalSupply, ReentrancyGuard.LockVariable("transfer")])
  {
    var vs := [Owner, Balances, TotalSupply];
    var lock := ReentrancyGuard.LockVariable("transfer");
    assert lock.name == "_reentrancyLock_transfer";
    assert !Insertions.HasVariable(vs, lock.name);
    assert vs + [lock] == [Owner, Balances, TotalSupply, lock];
  }

  lemma GuardAppended()
    ensures Insertions.WithModifier(OwnedToken.modifiers, ReentrancyGuard.GuardModifier("transfer"))
      == [OnlyOwner.OwnerModifier(), ReentrancyGuard.GuardModifier("transfer")]
  {
    var guard := ReentrancyGuard.GuardModifier("transfer");
    assert guard.name == "nonReentrant_transfer";
    assert !Insertions.HasModifier([OnlyOwner.OwnerModifier()], guard.name);
  }

  /** Both functions of the fixture transformed, in order. */
  lemma TokenTransformed()
    ensures TransformContract(Token) == GuardedToken
  {
    assert |Token.functions| == 2;
    assert TransformFunctionsUpTo(Token, 1) == TransformFunction(Token, 0);
    MintStep();
    TransferStep();
  }

  /**
   * The whole pipeline on the fixture: the guarded contract, and the
   * metadata SafeMath records for its `safe_math` decorator.
   */
  lemma TokenPipeline()
    ensures Transformed(TokenProgram) == Program([GuardedToken], Some(SafeMath.Mark(None)))
  {
    var cs := TokenProgram.contracts;
    assert cs == [Token] && TokenProgram.metadata == None;
    assert HasDecorator(Token.decorators, SafeMathDecorator) by {
      assert Token.decorators[0].name == SafeMathDecorator;
    }
    assert MetadataUpTo(cs, 1, None) == Some(SafeMath.Mark(None));
    TokenTransformed();
    assert ContractsUpTo(cs, 1) == [GuardedToken];
  }

  /** The generated contract gets the `owner = msg.sender` constructor and the 0.8 pragma. */
  lemma TokenGeneratedPreamble()
    ensures Generator.NeedsConstructor(GuardedToken)
    ensures Generator.PragmaVersion(Transformed(TokenProgram).metadata) == "^0.8.0"
  {
    TokenPipeline();
    assert Variables(GuardedToken)[0] == Owner;
  }

  /**
   * The pieces of the header the generator writes for the guarded
   * `transfer`: its parameter list, the guard after ` public`, and the
   * return type.
   */
  lemma TransferHeader()
    ensures var f := GuardedToken.functions[1];
      && Generator.ParametersText(f.parameters) == "address to, uint256 amount"
      && Generator.ModifiersSuffix(f.modifiers) == " nonReentrant_transfer"
      && Generator.ReturnsSuffix(f.returnType) == " returns (bool)"
  {
    var f := GuardedToken.functions[1];
    assert f.parameters == ToAndAmount && f.modifiers == Some(["nonReentrant_transfer"]) && f.returnType == Some(ScalarType("bool"));
    TransferParameters();
    TransferSuffixes();
  }

  lemma TransferSuffixes()
    ensures Generator.ModifiersSuffix(Some(["nonReentrant_transfer"])) == " nonReentrant_transfer"
    ensures Generator.ReturnsSuffix(Some(ScalarType("bool"))) == " returns (bool)"
  {
  }

  lemma TransferParameters()
    ensures Generator.ParametersText(ToAndAmount) == "address to, uint256 amount"
  {
    ParameterTexts();
    assert Text.Join(["address to", "uint256 amount"], ", ") == "address to" + ", " + "uint256 amount";
  }

  lemma ParameterTexts()
    ensures Generator.MapLines(ToAndAmount, Generator.ParameterText) == ["address to", "uint256 amount"]
  {
    var to := Parameter("to", Address);
    var amount := Parameter("amount", Uint256);
    assert Generator.ParameterText(to) == "address to";
    assert Generator.ParameterText(amount) == "uint256 amount";
    assert ToAndAmount[..1] == [to] && [to][..0] == [];
    assert Generator.MapLines([to], Generator.ParameterText) == [] + ["address to"];
  }
}
