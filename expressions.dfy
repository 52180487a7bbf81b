/**
 * The operator-precedence builder: operator table rows, the Operator factories, the per-row
 * parser (prefix and postfix operators around the term, then non-associative, left- or
 * right-associative infix operators) and the left fold of the rows over the term.
 *
 * The closures the C# builder passes between parsers (Func<T, T>, Partial<T>) are the UnFn and
 * Partial values of module Values; the loops inside those closures are the methods below, each
 * proved to build the nested shape the operators promise.
 */
module Expressions {
  import opened Wrappers
  import opened Values
  import opened ParseStates
  import opened Parsers
  import opened Combinators
  import opened Laws

  // ---------------------------------------------------------------------------------------
  // Operator table rows

  /**
   * OperatorTableRow: the parsers of the row's non-associative, left-associative and
   * right-associative infix operators and of its prefix and postfix operators. A slot the
   * factories leave null is an empty list here.
   */
  datatype OperatorTableRow = OperatorTableRow(
    infixNOps: seq<Parser>, infixLOps: seq<Parser>, infixROps: seq<Parser>,
    prefixOps: seq<Parser>, postfixOps: seq<Parser>)

  const EmptyRow: OperatorTableRow := OperatorTableRow([], [], [], [], [])

  /** `row.And(other)`: both rows' operators at one precedence level, slot by slot. */
  function And(r: OperatorTableRow, q: OperatorTableRow): OperatorTableRow
  {
    OperatorTableRow(r.infixNOps + q.infixNOps, r.infixLOps + q.infixLOps, r.infixROps + q.infixROps,
                     r.prefixOps + q.prefixOps, r.postfixOps + q.postfixOps)
  }

  /** One group of rows merged into one row: `Aggregate(Empty, (p, q) => p.And(q))`. */
  function Merged(group: seq<OperatorTableRow>): OperatorTableRow
  {
    if |group| == 0 then EmptyRow else And(Merged(group[..|group| - 1]), group[|group| - 1])
  }

  /** `Flatten`: each group of rows becomes the one row that merges it. */
  function FlattenTable(groups: seq<seq<OperatorTableRow>>): (rows: seq<OperatorTableRow>)
    ensures |rows| == |groups| && forall i :: 0 <= i < |groups| ==> rows[i] == Merged(groups[i])
  {
    seq(|groups|, i requires 0 <= i < |groups| => Merged(groups[i]))
  }

  /** And is associative and the empty row is its unit on both sides. */
  lemma AndMonoid(a: OperatorTableRow, b: OperatorTableRow, c: OperatorTableRow)
    ensures And(And(a, b), c) == And(a, And(b, c))
    ensures And(EmptyRow, a) == a && And(a, EmptyRow) == a
  {
    assert a.infixNOps + b.infixNOps + c.infixNOps == a.infixNOps + (b.infixNOps + c.infixNOps);
    assert a.infixLOps + b.infixLOps + c.infixLOps == a.infixLOps + (b.infixLOps + c.infixLOps);
    assert a.infixROps + b.infixROps + c.infixROps == a.infixROps + (b.infixROps + c.infixROps);
    assert a.prefixOps + b.prefixOps + c.prefixOps == a.prefixOps + (b.prefixOps + c.prefixOps);
    assert a.postfixOps + b.postfixOps + c.postfixOps == a.postfixOps + (b.postfixOps + c.postfixOps);
  }

  /**
   * Merging two groups one after the other merges their rows in order: a merged group holds
   * every row's operators, in the order of the rows.
   */
  lemma {:induction false} MergedAppend(g1: seq<OperatorTableRow>, g2: seq<OperatorTableRow>)
    ensures Merged(g1 + g2) == And(Merged(g1), Merged(g2))
    decreases |g2|
  {
    if |g2| == 0 {
      assert g1 + g2 == g1;
      AndMonoid(Merged(g1), EmptyRow, EmptyRow);
    } else {
      var init := g2[..|g2| - 1];
      var last := g2[|g2| - 1];
      assert (g1 + g2)[..|g1 + g2| - 1] == g1 + init;
      assert (g1 + g2)[|g1 + g2| - 1] == last;
      MergedAppend(g1, init);
      AndMonoid(Merged(g1), Merged(init), last);
    }
  }

  /** A group of one row merges to that row. */
  lemma MergedOne(r: OperatorTableRow)
    ensures Merged([r]) == r
  {
    assert [r][..0] == [];
    AndMonoid(r, EmptyRow, EmptyRow);
  }

  // ---------------------------------------------------------------------------------------
  // The Operator factories

  /** BinaryOperatorType; a C# enum can hold any other value of its underlying type. */
  datatype BinaryOperatorType = NonAssociative | LeftAssociative | RightAssociative | OtherBinary(code: int)

  /** UnaryOperatorType, likewise. */
  datatype UnaryOperatorType = PrefixOperator | PostfixOperator | OtherUnary(code: int)

  /** The message of an ArgumentOutOfRangeException built from a parameter name only. */
  const OutOfRangeMessage: string := "Specified argument was out of the range of valid values."

  function InfixN(opParser: Option<Parser>): Result<OperatorTableRow, ArgumentError>
  {
    if opParser.None? then Failure(ArgumentNull("opParser")) else Success(EmptyRow.(infixNOps := [opParser.value]))
  }

  function InfixL(opParser: Option<Parser>): Result<OperatorTableRow, ArgumentError>
  {
    if opParser.None? then Failure(ArgumentNull("opParser")) else Success(EmptyRow.(infixLOps := [opParser.value]))
  }

  function InfixR(opParser: Option<Parser>): Result<OperatorTableRow, ArgumentError>
  {
    if opParser.None? then Failure(ArgumentNull("opParser")) else Success(EmptyRow.(infixROps := [opParser.value]))
  }

  function Prefix(opParser: Option<Parser>): Result<OperatorTableRow, ArgumentError>
  {
    if opParser.None? then Failure(ArgumentNull("opParser")) else Success(EmptyRow.(prefixOps := [opParser.value]))
  }

  function Postfix(opParser: Option<Parser>): Result<OperatorTableRow, ArgumentError>
  {
    if opParser.None? then Failure(ArgumentNull("opParser")) else Success(EmptyRow.(postfixOps := [opParser.value]))
  }

  /** `Binary(type, opParser)`: the null check, then a dispatch on the associativity. */
  function Binary(t: BinaryOperatorType, opParser: Option<Parser>): Result<OperatorTableRow, ArgumentError>
  {
    if opParser.None? then Failure(ArgumentNull("opParser"))
    else
      match t
      case NonAssociative => InfixN(opParser)
      case LeftAssociative => InfixL(opParser)
      case RightAssociative => InfixR(opParser)
      case OtherBinary(_) => Failure(ArgumentOutOfRange("type", OutOfRangeMessage))
  }

  /** `Unary(type, opParser)`: the null check, then a dispatch on prefix or postfix. */
  function Unary(t: UnaryOperatorType, opParser: Option<Parser>): Result<OperatorTableRow, ArgumentError>
  {
    if opParser.None? then Failure(ArgumentNull("opParser"))
    else
      match t
      case PrefixOperator => Prefix(opParser)
      case PostfixOperator => Postfix(opParser)
      case OtherUnary(_) => Failure(ArgumentOutOfRange("type", OutOfRangeMessage))
  }

  /**
   * Each single-operator factory fills exactly its own slot with the one parser and leaves
   * the other four empty; every factory throws on a null parser.
   */
  lemma SingleOperatorRows(p: Parser)
    ensures InfixN(Some(p)) == Success(OperatorTableRow([p], [], [], [], []))
    ensures InfixL(Some(p)) == Success(OperatorTableRow([], [p], [], [], []))
    ensures InfixR(Some(p)) == Success(OperatorTableRow([], [], [p], [], []))
    ensures Prefix(Some(p)) == Success(OperatorTableRow([], [], [], [p], []))
    ensures Postfix(Some(p)) == Success(OperatorTableRow([], [], [], [], [p]))
    ensures var e := Failure(ArgumentNull("opParser"));
      && InfixN(None) == e && InfixL(None) == e && InfixR(None) == e && Prefix(None) == e && Postfix(None) == e
      && (forall t :: Binary(t, None) == e) && (forall t :: Unary(t, None) == e)
  {
  }

  /**
   * Binary and Unary pick the factory their type names, and any other type value throws
   * ArgumentOutOfRangeException for `type`.
   */
  lemma OperatorDispatch(p: Parser, code: int)
    ensures Binary(NonAssociative, Some(p)) == InfixN(Some(p))
    ensures Binary(LeftAssociative, Some(p)) == InfixL(Some(p))
    ensures Binary(RightAssociative, Some(p)) == InfixR(Some(p))
    ensures Binary(OtherBinary(code), Some(p)) == Failure(ArgumentOutOfRange("type", OutOfRangeMessage))
    ensures Unary(PrefixOperator, Some(p)) == Prefix(Some(p))
    ensures Unary(PostfixOperator, Some(p)) == Postfix(Some(p))
    ensures Unary(OtherUnary(code), Some(p)) == Failure(ArgumentOutOfRange("type", OutOfRangeMessage))
  {
  }

  // ---------------------------------------------------------------------------------------
  // Chained unary operators

  /** The functions inside a list of values. */
  function UnFns(vs: seq<Value>): (fs: seq<UnFn>)
    ensures |fs| == |vs| && forall i :: 0 <= i < |vs| ==> fs[i] == AsUnFn(vs[i])
  {
    seq(|vs|, i requires 0 <= i < |vs| => AsUnFn(vs[i]))
  }

  /** `fs[0](fs[1](... fs[n-1](z)))`: the first function is applied last, outermost. */
  function OutermostFirst(fs: seq<UnFn>, z: Value): Value
  {
    if |fs| == 0 then z else ApplyUn(fs[0], OutermostFirst(fs[1..], z))
  }

  /** `fs[n-1](... fs[1](fs[0](z)))`: the first function is applied first, innermost. */
  function InnermostFirst(fs: seq<UnFn>, z: Value): Value
  {
    if |fs| == 0 then z else ApplyUn(fs[|fs| - 1], InnermostFirst(fs[..|fs| - 1], z))
  }

  lemma {:induction false} ApplyDownFromNests(chain: UnFn, k: nat, z: Value)
    requires chain.PrefixChain? && k <= |chain.fs|
    ensures ApplyDownFrom(chain, k, OutermostFirst(chain.fs[k..], z)) == OutermostFirst(chain.fs, z)
    decreases k
  {
    var fs := chain.fs;
    if k == 0 {
      assert fs[0..] == fs;
    } else {
      var w := OutermostFirst(fs[k..], z);
      assert fs[k - 1..][1..] == fs[k..];
      assert ApplyUn(fs[k - 1], w) == OutermostFirst(fs[k - 1..], z);
      ApplyDownFromNests(chain, k - 1, z);
    }
  }

  lemma {:induction false} ApplyUpFromNests(chain: UnFn, k: nat, z: Value)
    requires chain.PostfixChain? && k <= |chain.fs|
    ensures ApplyUpFrom(chain, k, InnermostFirst(chain.fs[..k], z)) == InnermostFirst(chain.fs, z)
    decreases |chain.fs| - k
  {
    var fs := chain.fs;
    if k == |fs| {
      assert fs[..k] == fs;
    } else {
      var w := InnermostFirst(fs[..k], z);
      assert fs[..k + 1][..k] == fs[..k];
      assert ApplyUn(fs[k], w) == InnermostFirst(fs[..k + 1], z);
      ApplyUpFromNests(chain, k + 1, z);
    }
  }

  /** PrefixChainable's closure applies the operators from last to first: the first parsed is outermost. */
  lemma PrefixChainNests(fs: seq<UnFn>, z: Value)
    ensures ApplyUn(PrefixChain(fs), z) == OutermostFirst(fs, z)
  {
    assert fs[|fs|..] == [];
    ApplyDownFromNests(PrefixChain(fs), |fs|, z);
  }

  /** PostfixChainable's closure applies the operators from first to last: the first parsed is innermost. */
  lemma PostfixChainNests(fs: seq<UnFn>, z: Value)
    ensures ApplyUn(PostfixChain(fs), z) == InnermostFirst(fs, z)
  {
    assert fs[..0] == [];
    ApplyUpFromNests(PostfixChain(fs), 0, z);
  }

  /** PrefixChainable's loop: `for (i = fs.Count - 1; i >= 0; i--) z = fs[i](z)`. */
  method ApplyPrefixChain(fs: seq<UnFn>, z: Value) returns (r: Value)
    ensures r == OutermostFirst(fs, z)
  {
    r := z;
    var i := |fs|;
    while i > 0
      invariant 0 <= i <= |fs| && r == OutermostFirst(fs[i..], z)
    {
      i := i - 1;
      assert fs[i..][1..] == fs[i + 1..];
      r := ApplyUn(fs[i], r);
    }
    assert fs[0..] == fs;
  }

  /** PostfixChainable's loop: `for (i = 0; i < fs.Count; i++) z = fs[i](z)`. */
  method ApplyPostfixChain(fs: seq<UnFn>, z: Value) returns (r: Value)
    ensures r == InnermostFirst(fs, z)
  {
    r := z;
    for i := 0 to |fs|
      invariant r == InnermostFirst(fs[..i], z)
    {
      assert fs[..i + 1][..i] == fs[..i];
      r := ApplyUn(fs[i], r);
    }
    assert fs[..|fs|] == fs;
  }

  /** The Select of PrefixChainable: the parsed functions as one prefix-chain function. */
  function PrefixChainOf(fs: Value): Value { VFun(PrefixChain(UnFns(AsList(fs)))) }

  /** The Select of PostfixChainable. */
  function PostfixChainOf(fs: Value): Value { VFun(PostfixChain(UnFns(AsList(fs)))) }

  /**
   * `PrefixChainable(opParsers)`: `Prefix(OneOf(opParsers).AtLeastOnce().Select(chain))`.
   * OneOf throws on a null operator parser.
   */
  function PrefixChainable(opParsers: seq<Option<Parser>>): Result<OperatorTableRow, ArgumentError>
  {
    var alts := Created(opParsers);
    if alts.Failure? then Failure(alts.error) else Prefix(Some(Map1(PrefixChainOf, AtLeastOnce(alts.value))))
  }

  /** `PostfixChainable(opParsers)`: `Postfix(OneOf(opParsers).AtLeastOnce().Select(chain))`. */
  function PostfixChainable(opParsers: seq<Option<Parser>>): Result<OperatorTableRow, ArgumentError>
  {
    var alts := Created(opParsers);
    if alts.Failure? then Failure(alts.error) else Postfix(Some(Map1(PostfixChainOf, AtLeastOnce(alts.value))))
  }

  /**
   * On success the chainable operators consumed at least one operator (`AtLeastOnce`), and
   * their function nests the parsed operators: outermost first for a prefix chain, innermost
   * first for a postfix chain.
   */
  lemma ChainableLaw(ops: seq<Parser>, s: State, z: Value)
    requires ValidState(s)
    ensures var alts := Created(NonNull(ops));
      && alts == Success(OneOf(Flatten(ops)))
      && PrefixChainable(NonNull(ops)) == Success(EmptyRow.(prefixOps := [Map1(PrefixChainOf, AtLeastOnce(alts.value))]))
      && PostfixChainable(NonNull(ops)) == Success(EmptyRow.(postfixOps := [Map1(PostfixChainOf, AtLeastOnce(alts.value))]))
      && var o := Run(AtLeastOnce(alts.value), s);
      && (o.status == Succeeded ==>
            && |AsList(o.result)| >= 1
            && ApplyUn(AsUnFn(PrefixChainOf(o.result)), z) == OutermostFirst(UnFns(AsList(o.result)), z)
            && ApplyUn(AsUnFn(PostfixChainOf(o.result)), z) == InnermostFirst(UnFns(AsList(o.result)), z))
  {
    var ps := NonNull(ops);
    assert Unwrapped(ps) == ops;
    var q := AtLeastOnce(OneOf(Flatten(ops)));
    assert Run(q, s) == RunBasic(q, s);
    var o := Run(q, s);
    if o.status == Succeeded {
      PrefixChainNests(UnFns(AsList(o.result)), z);
      PostfixChainNests(UnFns(AsList(o.result)), z);
    }
  }

  /** Every parser in a list, as non-null arguments. */
  function NonNull(ps: seq<Parser>): (r: seq<Option<Parser>>)
    ensures |r| == |ps| && forall i :: 0 <= i < |ps| ==> r[i] == Some(ps[i])
  {
    seq(|ps|, i requires 0 <= i < |ps| => Some(ps[i]))
  }

  // ---------------------------------------------------------------------------------------
  // Infix operators: the left fold and the right reassociation

  /** The partial applications inside a list of values. */
  function Partials(vs: seq<Value>): (ps: seq<Partial>)
    ensures |ps| == |vs| && forall i :: 0 <= i < |vs| ==> ps[i] == AsPartial(vs[i])
  {
    seq(|vs|, i requires 0 <= i < |vs| => AsPartial(vs[i]))
  }

  /** `((z f1 y1) f2 y2) ... fn yn`: the pairs folded to the left. */
  function LeftNested(z: Value, fxs: seq<Partial>): Value
  {
    if |fxs| == 0 then z
    else ApplyBin(fxs[|fxs| - 1].func, LeftNested(z, fxs[..|fxs| - 1]), fxs[|fxs| - 1].arg)
  }

  /** `z f1 (y1 f2 (y2 ... fn yn))`: the pairs nested to the right. */
  function RightNested(z: Value, fxs: seq<Partial>): Value
    decreases |fxs|
  {
    if |fxs| == 0 then z else ApplyBin(fxs[0].func, z, RightNested(fxs[0].arg, fxs[1..]))
  }

  lemma {:induction false} FoldPairsNests(fxs: seq<Partial>, k: nat, z: Value)
    requires k <= |fxs|
    ensures FoldPairs(fxs, k, LeftNested(z, fxs[..k])) == LeftNested(z, fxs)
    decreases |fxs| - k
  {
    if k == |fxs| {
      assert fxs[..k] == fxs;
    } else {
      assert fxs[..k + 1][..k] == fxs[..k];
      assert ApplyL(fxs[k], LeftNested(z, fxs[..k])) == LeftNested(z, fxs[..k + 1]);
      FoldPairsNests(fxs, k + 1, z);
    }
  }

  /** infixL's closure folds the parsed pairs to the left. */
  lemma LeftChainNests(fxs: seq<Partial>, z: Value)
    ensures ApplyUn(LeftChain(fxs), z) == LeftNested(z, fxs)
  {
    assert fxs[..0] == [];
    FoldPairsNests(fxs, 0, z);
  }

  /** infixL's loop: `for (i = 0; i < fxs.Count; i++) z = fxs[i].ApplyL(z)`. */
  method ApplyLeftChain(fxs: seq<Partial>, z: Value) returns (r: Value)
    ensures r == LeftNested(z, fxs)
  {
    r := z;
    for i := 0 to |fxs|
      invariant r == LeftNested(z, fxs[..i])
    {
      assert fxs[..i + 1][..i] == fxs[..i];
      r := ApplyL(fxs[i], r);
    }
    assert fxs[..|fxs|] == fxs;
  }

  /** The `(y, _) => y` partial that infixR's reassociation starts from. */
  const HolePartial: Partial := Partial(Hole, VUnit)

  /**
   * The partial that infixR's loop builds: each pair's right operand moves to the left of the
   * next pair's function, leaving a hole at the far left for the first term.
   */
  function Reassociated(fxs: seq<Partial>): Partial
  {
    if |fxs| == 0 then HolePartial else Partial(fxs[0].func, ApplyL(Reassociated(fxs[1..]), fxs[0].arg))
  }

  /** Applying the reassociated partial to a term nests the pairs to the right. */
  lemma {:induction false} ReassociatedNests(fxs: seq<Partial>, z: Value)
    ensures ApplyL(Reassociated(fxs), z) == RightNested(z, fxs)
    decreases |fxs|
  {
    if |fxs| > 0 {
      ReassociatedNests(fxs[1..], fxs[0].arg);
    }
  }

  /**
   * infixR's loop: `for (i = fxs.Count - 1; i >= 0; i--) partial = new Partial(fx.Func,
   * partial.ApplyL(fx.Arg))`, from the hole. Its result applied to any term nests to the right.
   */
  method Reassociate(fxs: seq<Partial>) returns (partial: Partial)
    ensures partial == Reassociated(fxs)
    ensures forall z :: ApplyL(partial, z) == RightNested(z, fxs)
  {
    partial := HolePartial;
    var i := |fxs|;
    while i > 0
      invariant 0 <= i <= |fxs| && partial == Reassociated(fxs[i..])
    {
      i := i - 1;
      var fx := fxs[i];
      assert fxs[i..][1..] == fxs[i + 1..];
      partial := Partial(fx.func, ApplyL(partial, fx.arg));
    }
    assert fxs[0..] == fxs;
    forall z
      ensures ApplyL(partial, z) == RightNested(z, fxs)
    {
      ReassociatedNests(fxs, z);
    }
  }

  // ---------------------------------------------------------------------------------------
  // The per-row parser and the table

  const ReturnIdentity: Parser := Return(VFun(Identity))

  /** `(pre, tm, post) => post(pre(tm))`. */
  function ApplyUnary(pre: Value, tm: Value, post: Value): Value
  {
    ApplyUn(AsUnFn(post), ApplyUn(AsUnFn(pre), tm))
  }

  /** `(f, y) => new Partial<T>(f, y)`. */
  function MakePartial(f: Value, y: Value): Value { VPartial(Partial(AsBinFn(f), y)) }

  /** `(x, f) => f(x)`. */
  function ApplyTo(x: Value, f: Value): Value { ApplyUn(AsUnFn(f), x) }

  /** infixN's Select: `p => z => p.ApplyL(z)`. */
  function ApplyOnce(p: Value): Value { VFun(ApplyLeftOf(AsPartial(p))) }

  /** infixL's Select: the closure that folds the pairs to the left. */
  function FoldLeft(fxs: Value): Value { VFun(LeftChain(Partials(AsList(fxs)))) }

  /** infixR's Select: the closure that applies the reassociated partial. */
  function FoldRight(fxs: Value): Value { VFun(ApplyLeftOf(Reassociated(Partials(AsList(fxs))))) }

  /** `pTerm`: the row's prefix operators, the term, and its postfix operators, each defaulting to the identity. */
  function PrefixedTerm(term: Parser, row: OperatorTableRow): Parser
  {
    Map3(ApplyUnary, OneOf(Flatten(row.prefixOps + [ReturnIdentity])), term, OneOf(Flatten(row.postfixOps + [ReturnIdentity])))
  }

  /** `Op(pTerm, ops)`: one of the operators, then a term, as a partial application. */
  function Op(pTerm: Parser, ops: seq<Parser>): Parser
  {
    Map2(MakePartial, OneOf(Flatten(ops)), pTerm)
  }

  function InfixNParser(pTerm: Parser, ops: seq<Parser>): Parser { Map1(ApplyOnce, Op(pTerm, ops)) }

  function InfixLParser(pTerm: Parser, ops: seq<Parser>): Parser { Map1(FoldLeft, AtLeastOnce(Op(pTerm, ops))) }

  function InfixRParser(pTerm: Parser, ops: seq<Parser>): Parser { Map1(FoldRight, AtLeastOnce(Op(pTerm, ops))) }

  /**
   * The infix part of a row: non-associative, then left-associative, then right-associative
   * operators, then the identity. None of the four is a OneOf, so Create keeps them as they are.
   */
  function InfixParser(pTerm: Parser, row: OperatorTableRow): Parser
  {
    OneOf([InfixNParser(pTerm, row.infixNOps), InfixLParser(pTerm, row.infixLOps), InfixRParser(pTerm, row.infixROps), ReturnIdentity])
  }

  /** The parser for one row over `term`: the prefixed term, then the infix part applied to it. */
  function BuildRow(term: Parser, row: OperatorTableRow): Parser
  {
    var pTerm := PrefixedTerm(term, row);
    Map2(ApplyTo, pTerm, InfixParser(pTerm, row))
  }

  /** `operatorTable.Aggregate(term, Build)`: the rows folded over the term from the first. */
  function Build(term: Parser, table: seq<OperatorTableRow>): Parser
  {
    if |table| == 0 then term else BuildRow(Build(term, table[..|table| - 1]), table[|table| - 1])
  }

  /** The overload over groups of rows merges each group first. */
  function BuildGrouped(term: Parser, groups: seq<seq<OperatorTableRow>>): Parser
  {
    Build(term, FlattenTable(groups))
  }

  /** Folding the table in two parts folds the second part over the parser of the first. */
  lemma {:induction false} BuildAppend(term: Parser, table: seq<OperatorTableRow>, more: seq<OperatorTableRow>)
    ensures Build(term, table + more) == Build(Build(term, table), more)
    decreases |more|
  {
    if |more| == 0 {
      assert table + more == table;
    } else {
      var init := more[..|more| - 1];
      assert (table + more)[..|table + more| - 1] == table + init;
      assert (table + more)[|table + more| - 1] == more[|more| - 1];
      BuildAppend(term, table, init);
    }
  }

  /**
   * The table is folded from its first row: the first row's parser becomes the term of the
   * rest, so the first row binds tightest.
   */
  lemma FirstRowInnermost(term: Parser, table: seq<OperatorTableRow>)
    requires |table| > 0
    ensures Build(term, table) == Build(BuildRow(term, table[0]), table[1..])
  {
    BuildAppend(term, [table[0]], table[1..]);
    assert [table[0]] + table[1..] == table;
    assert Build(term, [table[0]]) == BuildRow(Build(term, []), table[0]) by {
      assert [table[0]][..0] == [];
    }
  }

  // ---------------------------------------------------------------------------------------
  // What a row parser does

  lemma RunReturnIdentity(s: State)
    requires ValidState(s)
    ensures Run(ReturnIdentity, s) == Outcome(Succeeded, VFun(Identity), s, [])
  {
    assert Run(ReturnIdentity, s) == RunPrimitive(ReturnIdentity, s);
  }

  /**
   * When every alternative from `i` on fails without consuming input, the identity that ends
   * the list succeeds where they stopped, and none of their expected entries is reported.
   */
  lemma {:induction false} IdentityEnds(xs: seq<Parser>, i: nat, s: State, firstTime: bool, err: InternalError, child: seq<Expected>)
    requires i <= |xs| && ValidState(s) && i + |Attempts(xs, i, s)| == |xs|
    ensures OneOfLoop(xs + [ReturnIdentity], i, s, firstTime, err, child)
      == Outcome(Succeeded, VFun(Identity), Reached(s, Attempts(xs, i, s)), [])
    decreases |xs| - i
  {
    var alts := xs + [ReturnIdentity];
    if i == |xs| {
      assert alts[i] == ReturnIdentity;
      RunReturnIdentity(s);
    } else {
      var o := Run(xs[i], s);
      assert alts[i] == xs[i];
      AttemptsStep(xs, i, s);
      OneOfLoopStep(alts, i, s, firstTime, err, child);
      var err' := if firstTime || o.state.error.errorLocation > err.errorLocation then o.state.error else err;
      IdentityEnds(xs, i + 1, o.state, false, err', child + o.added);
    }
  }

  /**
   * A unary slot: `OneOf(ops.Concat([returnIdentity]))`. When none of the operators matches
   * (each fails without consuming input) the slot yields the identity where it started,
   * reporting no expected entries.
   */
  lemma UnaryDefaultsToIdentity(ops: seq<Parser>, s: State)
    requires ValidState(s) && |Attempts(Flatten(ops), 0, s)| == |Flatten(ops)|
    ensures var o := Run(OneOf(Flatten(ops + [ReturnIdentity])), s);
      && o.status == Succeeded && o.result == VFun(Identity)
      && o.state.location == s.location && o.state.input == s.input && o.state.bookmarks == s.bookmarks
      && o.added == []
  {
    FlattenAppend(ops, [ReturnIdentity]);
    FlattenOne(ReturnIdentity);
    RunOneOfIsLoop(Flatten(ops) + [ReturnIdentity], s);
    IdentityEnds(Flatten(ops), 0, s, true, NoArgumentsError(s), []);
  }

  /** A row without prefix or postfix operators parses its term exactly as the term does. */
  lemma NoUnaryIsTerm(term: Parser, row: OperatorTableRow, s: State)
    requires ValidState(s) && row.prefixOps == [] && row.postfixOps == []
    ensures Run(PrefixedTerm(term, row), s) == Run(term, s)
  {
    var id := OneOf(Flatten([] + [ReturnIdentity]));
    assert PrefixedTerm(term, row) == Map3(ApplyUnary, id, term, id);
    UnaryDefaultsToIdentity([], s);
    Map3Law(ApplyUnary, id, term, term, s);
    Map3Law(ApplyUnary, id, term, id, s);
    var o1 := Run(id, s);
    assert Flatten([] + [ReturnIdentity]) == [ReturnIdentity] by { FlattenOne(ReturnIdentity); }
    RunOneOfIsLoop([ReturnIdentity], s);
    RunReturnIdentity(s);
    assert o1 == Outcome(Succeeded, VFun(Identity), s, []);
    var o2 := Run(term, s);
    if o2.status == Succeeded {
      RunOneOfIsLoop([ReturnIdentity], o2.state);
      RunReturnIdentity(o2.state);
    }
  }

  /**
   * Whatever the operators, the prefixed term's value is the postfix function applied to the
   * prefix function applied to the term: `post(pre(tm))`.
   */
  lemma PrefixedTermLaw(term: Parser, row: OperatorTableRow, s: State)
    requires ValidState(s)
    ensures var pre := OneOf(Flatten(row.prefixOps + [ReturnIdentity]));
      var post := OneOf(Flatten(row.postfixOps + [ReturnIdentity]));
      var o := Run(PrefixedTerm(term, row), s); var o1 := Run(pre, s);
      && (o1.status != Succeeded ==> o == o1)
      && (o1.status == Succeeded && Run(term, o1.state).status == Succeeded && Run(post, Run(term, o1.state).state).status == Succeeded ==>
            var o2 := Run(term, o1.state); var o3 := Run(post, o2.state);
            && o.status == Succeeded && o.state == o3.state
            && o.result == ApplyUn(AsUnFn(o3.result), ApplyUn(AsUnFn(o1.result), o2.result)))
  {
    Map3Law(ApplyUnary, OneOf(Flatten(row.prefixOps + [ReturnIdentity])), term, OneOf(Flatten(row.postfixOps + [ReturnIdentity])), s);
  }

  /**
   * The infix part tries the non-associative, left- and right-associative operators in that
   * order: the first that does not fail without consuming input decides the outcome, and when
   * all three fail that way the identity succeeds where they stopped.
   */
  lemma InfixLaw(pTerm: Parser, row: OperatorTableRow, s: State)
    requires ValidState(s)
    ensures var xs := [InfixNParser(pTerm, row.infixNOps), InfixLParser(pTerm, row.infixLOps), InfixRParser(pTerm, row.infixROps)];
      var r := Attempts(xs, 0, s); var o := Run(InfixParser(pTerm, row), s);
      && (|r| == 3 ==> o == Outcome(Succeeded, VFun(Identity), Reached(s, r), []))
      && (|r| < 3 ==> o == Decided(Run(xs[|r|], Reached(s, r))))
  {
    var xs := [InfixNParser(pTerm, row.infixNOps), InfixLParser(pTerm, row.infixLOps), InfixRParser(pTerm, row.infixROps)];
    var alts := xs + [ReturnIdentity];
    assert InfixParser(pTerm, row) == OneOf(alts);
    RunOneOfIsLoop(alts, s);
    var r := Attempts(xs, 0, s);
    if |r| == 3 {
      IdentityEnds(xs, 0, s, true, NoArgumentsError(s), []);
    } else {
      AttemptsPrefix(xs, [ReturnIdentity], 0, s);
      OneOfDecides(alts, s);
      assert alts[|r|] == xs[|r|];
    }
  }

  /** An empty infix slot fails where it started, with OneOf's no-arguments error and nothing expected. */
  lemma EmptySlotFails(pTerm: Parser, s: State)
    requires ValidState(s)
    ensures var e := Outcome(Failed, VUnit, WithError(s, NoArgumentsError(s)), []);
      && Run(InfixNParser(pTerm, []), s) == e && Run(InfixLParser(pTerm, []), s) == e && Run(InfixRParser(pTerm, []), s) == e
  {
    assert Flatten([]) == [];
    RunOneOfIsLoop([], s);
    Map2Law(MakePartial, OneOf([]), pTerm, s);
    var step := Op(pTerm, []);
    RunMap1Is(ApplyOnce, step, s);
    assert Run(AtLeastOnce(step), s) == RunBasic(AtLeastOnce(step), s);
    RunMap1Is(FoldLeft, AtLeastOnce(step), s);
    RunMap1Is(FoldRight, AtLeastOnce(step), s);
  }

  /** A non-associative operator applies its function once: `z op y` for the one operator and term parsed. */
  lemma InfixNApplies(pTerm: Parser, ops: seq<Parser>, s: State, z: Value)
    requires ValidState(s) && Run(InfixNParser(pTerm, ops), s).status == Succeeded
    ensures var o1 := Run(OneOf(Flatten(ops)), s); var o2 := Run(pTerm, o1.state);
      && o1.status == Succeeded && o2.status == Succeeded
      && ApplyUn(AsUnFn(Run(InfixNParser(pTerm, ops), s).result), z) == ApplyBin(AsBinFn(o1.result), z, o2.result)
  {
    RunMap1Is(ApplyOnce, Op(pTerm, ops), s);
    Map2Law(MakePartial, OneOf(Flatten(ops)), pTerm, s);
  }

  /**
   * Left-associative operators: the parsed `(operator, term)` pairs, at least one, folded to
   * the left onto the row's first term.
   */
  lemma InfixLFolds(pTerm: Parser, ops: seq<Parser>, s: State, z: Value)
    requires ValidState(s) && Run(InfixLParser(pTerm, ops), s).status == Succeeded
    ensures var w := Run(AtLeastOnce(Op(pTerm, ops)), s);
      && w.status == Succeeded && |AsList(w.result)| >= 1
      && ApplyUn(AsUnFn(Run(InfixLParser(pTerm, ops), s).result), z) == LeftNested(z, Partials(AsList(w.result)))
  {
    var step := Op(pTerm, ops);
    RunMap1Is(FoldLeft, AtLeastOnce(step), s);
    assert Run(AtLeastOnce(step), s) == RunBasic(AtLeastOnce(step), s);
    LeftChainNests(Partials(AsList(Run(AtLeastOnce(step), s).result)), z);
  }

  /**
   * Right-associative operators: the parsed `(operator, term)` pairs, at least one, nested to
   * the right, the row's first term at the far left.
   */
  lemma InfixRNests(pTerm: Parser, ops: seq<Parser>, s: State, z: Value)
    requires ValidState(s) && Run(InfixRParser(pTerm, ops), s).status == Succeeded
    ensures var w := Run(AtLeastOnce(Op(pTerm, ops)), s);
      && w.status == Succeeded && |AsList(w.result)| >= 1
      && ApplyUn(AsUnFn(Run(InfixRParser(pTerm, ops), s).result), z) == RightNested(z, Partials(AsList(w.result)))
  {
    var step := Op(pTerm, ops);
    RunMap1Is(FoldRight, AtLeastOnce(step), s);
    assert Run(AtLeastOnce(step), s) == RunBasic(AtLeastOnce(step), s);
    ReassociatedNests(Partials(AsList(Run(AtLeastOnce(step), s).result)), z);
  }

  /**
   * A row parses a prefixed term and then its infix part where the term stopped; its value is
   * the infix part's function applied to the term, and a failure of either is the row's.
   */
  lemma RowLaw(term: Parser, row: OperatorTableRow, s: State)
    requires ValidState(s)
    ensures var pTerm := PrefixedTerm(term, row); var o := Run(BuildRow(term, row), s); var t := Run(pTerm, s);
      && (t.status != Succeeded ==> o == t)
      && (t.status == Succeeded ==>
            var f := Run(InfixParser(pTerm, row), t.state);
            && o.status == f.status && o.state == f.state && o.added == t.added + f.added
            && (f.status == Succeeded ==> o.result == ApplyUn(AsUnFn(f.result), t.result)))
  {
    var pTerm := PrefixedTerm(term, row);
    Map2Law(ApplyTo, pTerm, InfixParser(pTerm, row), s);
  }

  /**
   * `Op` over one operator: when the operator fails without consuming input so does `Op`;
   * when it succeeds, the term runs where it stopped and a success pairs the operator's
   * function with the term as a partial application.
   */
  lemma OneOperatorStep(pTerm: Parser, opParser: Parser, s: State)
    requires ValidState(s) && !opParser.OneOf?
    ensures var o1 := Run(opParser, s); var o := Run(Op(pTerm, [opParser]), s);
      && (FailedInPlace(s, o1) ==> FailedInPlace(s, o))
      && (o1.status == Succeeded ==>
            var u := Run(pTerm, o1.state);
            && o.status == u.status && o.state == u.state && o.added == u.added
            && (u.status == Succeeded ==> o.result == MakePartial(o1.result, u.result)))
  {
    FlattenOne(opParser);
    RunOneOfIsLoop([opParser], s);
    Map2Law(MakePartial, OneOf([opParser]), pTerm, s);
    if FailedInPlace(s, Run(opParser, s)) {
      OneOfLoopStep([opParser], 0, s, true, NoArgumentsError(s), []);
    }
  }
}
