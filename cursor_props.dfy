/**
 * What the line cursor of src/parser.js guarantees about the program it
 * reads: the line filter is stable, one contract per `contract ` line in
 * order, every `@` line of a contract's region is a decorator of that
 * contract, and a function's decorators are the `@` lines above it back to
 * the line that ends the search.
 */
module CursorProps {
  import opened Ast
  import opened Text
  import opened Parser
  import opened Cursor

  // ---------------------------------------------------------------- lines

  lemma {:induction false} CleanLinesAppend(a: seq<string>, b: seq<string>)
    ensures CleanLines(a + b) == CleanLines(a) + CleanLines(b)
    decreases |a|
  {
    if a != [] {
      assert (a + b)[1..] == a[1..] + b;
      CleanLinesAppend(a[1..], b);
    } else {
      assert a + b == b;
    }
  }

  /** Filtering the constructor's lines a second time changes nothing. */
  lemma {:induction false} CleanLinesIdempotent(raw: seq<string>)
    ensures CleanLines(CleanLines(raw)) == CleanLines(raw)
    decreases |raw|
  {
    if raw != [] {
      var head := if Kept(Trim(raw[0])) then [Trim(raw[0])] else [];
      CleanLinesAppend(head, CleanLines(raw[1..]));
      CleanLinesIdempotent(raw[1..]);
      if head != [] {
        TrimIdempotent(raw[0]);
        assert CleanLines(head) == head by {
          assert head[1..] == [];
        }
      }
    }
  }

  // ------------------------------------------------------------ contracts

  /** The names on the `contract ` lines from line `i` on, in order. */
  function ContractLineNames(lines: seq<string>, i: nat): seq<string>
    requires i <= |lines|
    decreases |lines| - i
  {
    if i == |lines| then []
    else (if StartsWith(lines[i], "contract ") then [ContractName(lines[i])] else []) + ContractLineNames(lines, i + 1)
  }

  function Names(cs: seq<Contract>): seq<string> {
    if cs == [] then [] else [cs[0].name] + Names(cs[1..])
  }

  lemma {:induction false} NamesAppend(cs: seq<Contract>, c: Contract)
    ensures Names(cs + [c]) == Names(cs) + [c.name]
    decreases |cs|
  {
    if cs != [] {
      assert (cs + [c])[1..] == cs[1..] + [c];
      NamesAppend(cs[1..], c);
    } else {
      assert Names([c]) == [c.name] + Names([]);
    }
  }

  lemma {:induction false} NoContractLineNames(lines: seq<string>, i: nat, j: nat)
    requires i <= j <= |lines|
    requires forall k :: i <= k < j ==> !StartsWith(lines[k], "contract ")
    ensures ContractLineNames(lines, i) == ContractLineNames(lines, j)
    decreases j - i
  {
    if i < j {
      NoContractLineNames(lines, i + 1, j);
    }
  }

  /** One pass of the contract loop passes over no contract line after the one it starts at. */
  lemma ContractStepSkipsNoContract(lines: seq<string>, i: nat, m: Matchers, acc: Collected)
    requires i < |lines|
    ensures forall k :: i < k < ContractStep(lines, i, m, acc).1 ==> !StartsWith(lines[k], "contract ")
  {
  }

  /** The contract loop stops at the first contract line it reaches. */
  lemma {:induction false} ContractFromSkipsNoContract(lines: seq<string>, i: nat, m: Matchers, acc: Collected)
    requires i <= |lines|
    ensures forall k :: i <= k < ContractFrom(lines, i, m, acc).1 ==> !StartsWith(lines[k], "contract ")
    decreases |lines| - i
  {
    if i < |lines| && !StartsWith(lines[i], "contract ") {
      var next := ContractStep(lines, i, m, acc);
      ContractStepSkipsNoContract(lines, i, m, acc);
      ContractFromSkipsNoContract(lines, next.1, m, next.0);
    }
  }

  /**
   * `parse` reads one contract per `contract ` line, in order, each named
   * after its line: nested or missing contract lines cannot merge or drop
   * contracts.
   */
  lemma {:induction false} ContractsFromNames(lines: seq<string>, i: nat, m: Matchers, cs: seq<Contract>)
    requires i <= |lines|
    ensures Names(ContractsFrom(lines, i, m, cs)) == Names(cs) + ContractLineNames(lines, i)
    decreases |lines| - i
  {
    if i < |lines| {
      if StartsWith(lines[i], "contract ") {
        var c := ContractAt(lines, i, m);
        ContractFromSkipsNoContract(lines, i + 1, m, NothingCollected);
        NoContractLineNames(lines, i + 1, c.1);
        ContractsFromNames(lines, c.1, m, cs + [c.0]);
        NamesAppend(cs, c.0);
      } else {
        ContractsFromNames(lines, i + 1, m, cs);
      }
    }
  }

  /** The program read from the lines has one contract per `contract ` line, named after it. */
  lemma ProgramContractNames(lines: seq<string>, m: Matchers)
    ensures Names(ParseLines(lines, m).contracts) == ContractLineNames(lines, 0)
  {
    ContractsFromNames(lines, 0, m, []);
  }

  // ----------------------------------------------------------- decorators

  /** The decorators the `@` lines in `[i, j)` name, in order. */
  function AtLines(lines: seq<string>, i: nat, j: nat): seq<Decorator>
    requires i <= j <= |lines|
    decreases j - i
  {
    if i == j then []
    else (if StartsWith(lines[i], "@") then [DecoratorOf(lines[i])] else []) + AtLines(lines, i + 1, j)
  }

  lemma {:induction false} AtLinesSplit(lines: seq<string>, i: nat, j: nat, k: nat)
    requires i <= j <= k <= |lines|
    ensures AtLines(lines, i, k) == AtLines(lines, i, j) + AtLines(lines, j, k)
    decreases j - i
  {
    if i < j {
      AtLinesSplit(lines, i + 1, j, k);
    }
  }

  lemma {:induction false} NoAtLines(lines: seq<string>, i: nat, j: nat)
    requires i <= j <= |lines|
    requires forall k :: i <= k < j ==> !StartsWith(lines[k], "@")
    ensures AtLines(lines, i, j) == []
    decreases j - i
  {
    if i < j {
      NoAtLines(lines, i + 1, j);
    }
  }

  lemma OneLine(lines: seq<string>, i: nat)
    requires i < |lines|
    ensures AtLines(lines, i, i + 1) == if StartsWith(lines[i], "@") then [DecoratorOf(lines[i])] else []
  {
    assert AtLines(lines, i + 1, i + 1) == [];
  }

  /** One pass of the contract loop adds the decorators of the `@` lines it passes over, and only those. */
  lemma ContractStepDecorators(lines: seq<string>, i: nat, m: Matchers, acc: Collected)
    requires i < |lines|
    ensures var r := ContractStep(lines, i, m, acc); r.0.decorators == acc.decorators + AtLines(lines, i, r.1)
  {
    var r := ContractStep(lines, i, m, acc);
    OneLine(lines, i);
    AtLinesSplit(lines, i, i + 1, r.1);
    NoAtLines(lines, i + 1, r.1);
  }

  /** The contract loop makes every `@` line it passes over a contract decorator, in order. */
  lemma {:induction false} ContractFromDecorators(lines: seq<string>, i: nat, m: Matchers, acc: Collected)
    requires i <= |lines|
    ensures var r := ContractFrom(lines, i, m, acc); r.0.decorators == acc.decorators + AtLines(lines, i, r.1)
    decreases |lines| - i
  {
    if i == |lines| || StartsWith(lines[i], "contract ") {
    } else {
      var next := ContractStep(lines, i, m, acc);
      var r := ContractFrom(lines, next.1, m, next.0);
      ContractStepDecorators(lines, i, m, acc);
      ContractFromDecorators(lines, next.1, m, next.0);
      AtLinesSplit(lines, i, next.1, r.1);
    }
  }

  /**
   * A contract's decorators are the `@` lines between its `contract ` line
   * and the next one, in order, including those written above its
   * functions: the loop tests for `@` before it tests for a function.
   */
  lemma ContractDecorators(lines: seq<string>, i: nat, m: Matchers)
    requires i < |lines|
    ensures var r := ContractAt(lines, i, m); r.0.decorators == AtLines(lines, i + 1, r.1)
  {
    ContractFromDecorators(lines, i + 1, m, NothingCollected);
  }

  /** A line the backward search of `parseFunction` takes (an `@` line) or passes over. */
  predicate Passable(line: string) {
    StartsWith(line, "@") || !EndsDecoratorSearch(line)
  }

  /** Every line in `(j, k]` is passable: the stretch the backward search walks from `k` down to `j`. */
  predicate PassableRun(lines: seq<string>, j: int, k: int)
    requires -1 <= j <= k < |lines|
    decreases k - j
  {
    j == k || (Passable(lines[k]) && PassableRun(lines, j, k - 1))
  }

  /**
   * The backward search of `parseFunction`: from line `k` down to a line `j`
   * that ends it (or the start), over passable lines, the decorators are the
   * `@` lines of that stretch in order.
   */
  lemma {:induction false} DecoratorsBeforeRun(lines: seq<string>, j: int, k: int, ds: seq<Decorator>)
    requires -1 <= j <= k < |lines|
    requires j == -1 || !Passable(lines[j])
    requires PassableRun(lines, j, k)
    ensures DecoratorsBefore(lines, k, ds) == AtLines(lines, j + 1, k + 1) + ds
    decreases k - j
  {
    if j == k {
      SearchEnds(lines, j, ds);
      assert AtLines(lines, j + 1, k + 1) == [];
    } else {
      var here := AtLines(lines, k, k + 1);
      assert Passable(lines[k]) && PassableRun(lines, j, k - 1);
      DecoratorsBeforeRun(lines, j, k - 1, here + ds);
      RunStep(lines, j, k, ds);
    }
  }

  lemma RunStep(lines: seq<string>, j: int, k: nat, ds: seq<Decorator>)
    requires -1 <= j < k < |lines| && Passable(lines[k])
    requires var here := AtLines(lines, k, k + 1);
      DecoratorsBefore(lines, k - 1, here + ds) == AtLines(lines, j + 1, k) + (here + ds)
    ensures DecoratorsBefore(lines, k, ds) == AtLines(lines, j + 1, k + 1) + ds
  {
    SearchPasses(lines, k, ds);
    AtLinesSplit(lines, j + 1, k, k + 1);
    Regroup(AtLines(lines, j + 1, k), AtLines(lines, k, k + 1), ds);
  }

  /** The backward search stops at the start or at a line that ends it. */
  lemma SearchEnds(lines: seq<string>, j: int, ds: seq<Decorator>)
    requires -1 <= j < |lines|
    requires j == -1 || !Passable(lines[j])
    ensures DecoratorsBefore(lines, j, ds) == ds
  {
  }

  /** The backward search takes an `@` line and passes over a line that does not end it. */
  lemma SearchPasses(lines: seq<string>, k: nat, ds: seq<Decorator>)
    requires k < |lines| && Passable(lines[k])
    ensures DecoratorsBefore(lines, k, ds) == DecoratorsBefore(lines, k - 1, AtLines(lines, k, k + 1) + ds)
  {
    OneLine(lines, k);
    if !StartsWith(lines[k], "@") {
      assert AtLines(lines, k, k + 1) + ds == ds;
    }
  }

  lemma Regroup<T>(a: seq<T>, b: seq<T>, c: seq<T>)
    ensures (a + b) + c == a + (b + c)
  {
  }

  lemma FunctionAtDecorators(lines: seq<string>, i: nat, m: Matchers)
    requires i < |lines|
    ensures FunctionAt(lines, i, m).0.Some? ==> FunctionAt(lines, i, m).0.value.decorators == DecoratorsBefore(lines, i - 1, [])
  {
  }

  /** A parsed function's decorators are the `@` lines above it, back to the line that ends the search. */
  lemma FunctionDecorators(lines: seq<string>, i: nat, m: Matchers, j: int)
    requires -1 <= j < i < |lines|
    requires j == -1 || !Passable(lines[j])
    requires PassableRun(lines, j, i - 1)
    ensures FunctionAt(lines, i, m).0.Some? ==> FunctionAt(lines, i, m).0.value.decorators == AtLines(lines, j + 1, i)
  {
    DecoratorsBeforeRun(lines, j, i - 1, []);
    FunctionAtDecorators(lines, i, m);
    assert AtLines(lines, j + 1, i) + [] == AtLines(lines, j + 1, i);
  }
}
