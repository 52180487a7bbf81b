/**
 * The expression builder at work, as the expression benchmark sets it up: `Num` as the term
 * and one row holding `Char('+').Then(Return(add))`, either as a left-associative or as a
 * right-associative operator. Over every input `d0+d1+...+dn` of one-digit numbers the left
 * row builds `((d0+d1)+...)+dn`, the right row builds `d0+(d1+(...+dn))`, and both trees
 * add up to the same sum.
 *
 * The operands here are single digits only: the laws below are not stated for operands of
 * several digits, such as most of the numbers in the benchmark's own input.
 */
module SumExpressions {
  import opened Wrappers
  import opened Values
  import opened ParseStates
  import opened Parsers
  import opened Combinators
  import opened Laws
  import opened Numbers
  import opened Expressions
  import opened TopLevel

  /** `(x, y) => x + y`. */
  const Add: Value := VFun2(BinOp("+"))

  /** `Parser.Char('+').Then(Return(add))`. */
  const Plus: Parser := Then(Char('+'), Return(Add))

  /** `Operator.InfixL(plus)` and `Operator.InfixR(plus)`. */
  const LeftRow: OperatorTableRow := OperatorTableRow([], [Plus], [], [], [])
  const RightRow: OperatorTableRow := OperatorTableRow([], [], [Plus], [], [])

  /** `ExpressionParser.Build(Parser.Num, new[] { new[] { infixL } })`, and the same with infixR. */
  const LeftSum: Parser := BuildGrouped(DecimalNum, [[LeftRow]])
  const RightSum: Parser := BuildGrouped(DecimalNum, [[RightRow]])

  predicate IsDigits(ds: seq<int>)
  {
    forall i :: 0 <= i < |ds| ==> 0 <= ds[i] < 10
  }

  /** The digits joined by '+'. */
  function SumText(ds: seq<int>): (t: seq<char>)
    requires |ds| >= 1 && IsDigits(ds)
    ensures |t| == 2 * |ds| - 1
    ensures forall j :: 0 <= j < |t| ==> t[j] == if j % 2 == 0 then DigitFor(ds[j / 2]) else '+'
  {
    seq(2 * |ds| - 1, j requires 0 <= j < 2 * |ds| - 1 => if j % 2 == 0 then DigitFor(ds[j / 2]) else '+')
  }

  /** The `(+, d)` pairs of the operands after the first. */
  function Terms(xs: seq<int>): (ps: seq<Partial>)
    ensures |ps| == |xs| && forall i :: 0 <= i < |xs| ==> ps[i] == Partial(BinOp("+"), VInt(xs[i]))
  {
    seq(|xs|, i requires 0 <= i < |xs| => Partial(BinOp("+"), VInt(xs[i])))
  }

  /** The same pairs as the values the repetition collects. */
  function TermValues(xs: seq<int>): (vs: seq<Value>)
    ensures |vs| == |xs| && forall i :: 0 <= i < |xs| ==> vs[i] == VPartial(Partial(BinOp("+"), VInt(xs[i])))
  {
    seq(|xs|, i requires 0 <= i < |xs| => VPartial(Partial(BinOp("+"), VInt(xs[i]))))
  }

  function Sum(xs: seq<int>): int
  {
    if |xs| == 0 then 0 else xs[0] + Sum(xs[1..])
  }

  /** What an addition tree adds up to. */
  function Eval(v: Value): int
  {
    match v
    case VInt(i) => i
    case VNode(op, args) => if op == "+" && |args| == 2 then Eval(args[0]) + Eval(args[1]) else 0
    case _ => 0
  }

  /** `plus` reads '+' and returns the addition; anything else makes it fail without consuming. */
  lemma PlusLaw(s: State)
    requires ValidState(s)
    ensures var o := Run(Plus, s);
      && (s.location < |s.input| && s.input[s.location] == '+' ==> o == Outcome(Succeeded, Add, Advanced(s, 1), []))
      && (!(s.location < |s.input| && s.input[s.location] == '+') ==> FailedInPlace(s, o))
  {
    Map2Law(Second, Char('+'), Return(Add), s);
    assert Run(Char('+'), s) == RunBasic(Char('+'), s);
    if s.location < |s.input| && s.input[s.location] == '+' {
      var a := Advanced(s, 1);
      assert Run(Return(Add), a) == RunPrimitive(Return(Add), a);
    }
  }

  /** `Num` on one digit followed by '+' or the end of input: that digit's value. */
  lemma NumLaw(s: State)
    requires ValidState(s) && s.location < |s.input| && '0' <= s.input[s.location] <= '9'
    requires s.location + 1 == |s.input| || s.input[s.location + 1] == '+'
    ensures var o := Run(DecimalNum, s);
      && o.status == Succeeded && o.result == VInt(s.input[s.location] as int - '0' as int)
      && o.state.location == s.location + 1 && o.state.input == s.input && o.added == []
  {
    LabelledLaw(Int(10), "number", s);
    IntDigit(s);
  }

  /** `Int(10)` on one digit followed by '+' or the end of input: that digit's value. */
  lemma IntDigit(s: State)
    requires ValidState(s) && s.location < |s.input| && '0' <= s.input[s.location] <= '9'
    requires s.location + 1 == |s.input| || s.input[s.location + 1] == '+'
    ensures var o := Run(Int(10), s);
      && o.status == Succeeded && o.result == VInt(s.input[s.location] as int - '0' as int)
      && o.state.location == s.location + 1 && o.added == []
  {
    SignedLaw(Int32, 10, s);
    DigitValueAt(s);
  }

  /** The number Int(10) reads at a lone digit: no sign, one digit, and its value. */
  lemma DigitValueAt(s: State)
    requires ValidState(s) && s.location < |s.input| && '0' <= s.input[s.location] <= '9'
    requires s.location + 1 == |s.input| || s.input[s.location + 1] == '+'
    ensures var k := s.location;
      && SignAt(s) == (1, 0) && DigitsEnd(s.input, k, 10) == k + 1
      && Wrap(Int32, SignAt(s).0 * Positional(10, DigitsOf(10, s.input[k..k + 1]))) == s.input[k] as int - '0' as int
  {
    var k := s.location;
    var d := s.input[k] as int - '0' as int;
    assert DigitsEnd(s.input, k + 1, 10) == k + 1;
    var ds := DigitsOf(10, s.input[k..k + 1]);
    assert ds == [d];
    assert Positional(10, ds) == d by {
      assert ds[1..] == [];
      assert Pow(10, 0) == 1;
    }
    WrapInRange(Int32, d);
  }

  /** The text around the operator that starts at `2k - 1`. */
  lemma TextAt(ds: seq<int>, k: nat)
    requires |ds| >= 1 && IsDigits(ds) && 1 <= k < |ds|
    ensures var t := SumText(ds);
      && t[2 * k - 1] == '+' && '0' <= t[2 * k] <= '9' && t[2 * k] as int - '0' as int == ds[k]
      && (2 * k + 1 == |t| || t[2 * k + 1] == '+')
  {
    var t := SumText(ds);
    assert (2 * k) / 2 == k && (2 * k) % 2 == 0 && (2 * k - 1) % 2 == 1;
    if 2 * k + 1 < |t| {
      assert (2 * k + 1) % 2 == 1;
    }
  }

  /** A lone digit at the cursor: followed by '+' or by the end of input. */
  predicate LoneDigit(s: State)
  {
    && ValidState(s) && s.location < |s.input| && '0' <= s.input[s.location] <= '9'
    && (s.location + 1 == |s.input| || s.input[s.location + 1] == '+')
  }

  /** The outcome of reading the digit at the cursor as its value. */
  predicate ReadsDigit(s: State, o: Outcome)
    requires s.location < |s.input|
  {
    && o.status == Succeeded && o.result == VInt(s.input[s.location] as int - '0' as int)
    && o.state.location == s.location + 1 && o.state.input == s.input && o.added == []
  }

  /** A term parser that reads every lone digit as its value. */
  ghost predicate IsDigitTerm(term: Parser)
  {
    forall s {:trigger Run(term, s)} :: LoneDigit(s) ==> ReadsDigit(s, Run(term, s))
  }

  predicate PlusAt(s: State)
  {
    s.location < |s.input| && s.input[s.location] == '+'
  }

  /** An operator parser that reads '+' as the addition and otherwise fails without consuming. */
  ghost predicate IsPlusOperator(plus: Parser)
  {
    && !plus.OneOf?
    && forall s {:trigger Run(plus, s)} :: ValidState(s) ==>
         && (PlusAt(s) ==> Run(plus, s) == Outcome(Succeeded, Add, Advanced(s, 1), []))
         && (!PlusAt(s) ==> FailedInPlace(s, Run(plus, s)))
  }

  lemma NumIsDigitTerm()
    ensures IsDigitTerm(DecimalNum)
  {
    forall s | LoneDigit(s)
      ensures ReadsDigit(s, Run(DecimalNum, s))
    {
      NumLaw(s);
    }
  }

  lemma PlusIsPlusOperator()
    ensures IsPlusOperator(Plus)
  {
    forall s | ValidState(s)
      ensures (PlusAt(s) ==> Run(Plus, s) == Outcome(Succeeded, Add, Advanced(s, 1), []))
      ensures (!PlusAt(s) ==> FailedInPlace(s, Run(Plus, s)))
    {
      PlusLaw(s);
    }
  }

  /** Without unary operators, the prefixed term of a digit term is a digit term. */
  lemma PrefixedDigitTerm(term: Parser, row: OperatorTableRow)
    requires IsDigitTerm(term) && row.prefixOps == [] && row.postfixOps == []
    ensures IsDigitTerm(PrefixedTerm(term, row))
  {
    forall s | LoneDigit(s)
      ensures ReadsDigit(s, Run(PrefixedTerm(term, row), s))
    {
      NoUnaryIsTerm(term, row, s);
    }
  }

  /**
   * What the operator-then-term step does at the k-th operator position `2k - 1` of the text:
   * the pair of the k-th operand, read up to the next operator; past the last operand, a
   * failure that consumes nothing.
   */
  predicate StepOutcome(ds: seq<int>, k: nat, s: State, o: Outcome)
  {
    if k < |ds| then
      && o.status == Succeeded && o.result == VPartial(Partial(BinOp("+"), VInt(ds[k])))
      && o.state.location == s.location + 2 && o.state.input == s.input && ValidState(o.state) && o.added == []
    else FailedInPlace(s, o)
  }

  ghost predicate StepsAt(step: Parser, ds: seq<int>, k: nat, s: State)
  {
    ValidState(s) && StepOutcome(ds, k, s, Run(step, s))
  }

  /** A step parser that behaves as `StepOutcome` says at every operator position of the text of `ds`. */
  ghost predicate StepsThrough(step: Parser, ds: seq<int>)
    requires |ds| >= 1 && IsDigits(ds)
  {
    forall k: nat, s {:trigger StepsAt(step, ds, k, s)} ::
      1 <= k <= |ds| && ValidState(s) && s.input == SumText(ds) && s.location == 2 * k - 1 ==> StepsAt(step, ds, k, s)
  }

  /** The '+' operator at one state. */
  lemma PlusStep(plus: Parser, s: State)
    requires IsPlusOperator(plus) && ValidState(s)
    ensures PlusAt(s) ==> Run(plus, s) == Outcome(Succeeded, Add, Advanced(s, 1), [])
    ensures !PlusAt(s) ==> FailedInPlace(s, Run(plus, s))
  {
  }

  /** The digit term at one lone digit. */
  lemma DigitStep(term: Parser, s: State)
    requires IsDigitTerm(term) && LoneDigit(s)
    ensures ReadsDigit(s, Run(term, s))
  {
  }

  /** `Op` reads '+' and then a digit as the pair of the addition and that digit. */
  lemma PairStep(pTerm: Parser, plus: Parser, s: State)
    requires ValidState(s) && !plus.OneOf? && s.location + 1 <= |s.input|
    requires Run(plus, s) == Outcome(Succeeded, Add, Advanced(s, 1), [])
    requires var a := Advanced(s, 1); a.location < |a.input| && ReadsDigit(a, Run(pTerm, a))
    ensures var o := Run(Op(pTerm, [plus]), s);
      && o.status == Succeeded && o.result == VPartial(Partial(BinOp("+"), VInt(s.input[s.location + 1] as int - '0' as int)))
      && o.state.location == s.location + 2 && o.state.input == s.input && ValidState(o.state) && o.added == []
  {
    OneOperatorStep(pTerm, plus, s);
  }

  /** The text at an operator position `2k - 1` before the last operand: '+' and then a lone digit, `ds[k]`. */
  lemma OperatorAt(ds: seq<int>, k: nat, s: State)
    requires |ds| >= 1 && IsDigits(ds) && 1 <= k < |ds|
    requires ValidState(s) && s.input == SumText(ds) && s.location == 2 * k - 1
    ensures PlusAt(s) && LoneDigit(Advanced(s, 1)) && s.input[s.location + 1] as int - '0' as int == ds[k]
  {
    TextAt(ds, k);
  }

  /** `Op` over a '+' operator and a digit term, at an operator position before the last operand. */
  lemma StepAtOperator(pTerm: Parser, plus: Parser, ds: seq<int>, k: nat, s: State)
    requires IsDigitTerm(pTerm) && IsPlusOperator(plus)
    requires |ds| >= 1 && IsDigits(ds) && 1 <= k < |ds|
    requires ValidState(s) && s.input == SumText(ds) && s.location == 2 * k - 1
    ensures StepsAt(Op(pTerm, [plus]), ds, k, s)
  {
    OperatorAt(ds, k, s);
    PlusStep(plus, s);
    DigitStep(pTerm, Advanced(s, 1));
    PairStep(pTerm, plus, s);
  }

  /** `Op` over a '+' operator at the end of the text. */
  lemma StepAtEnd(pTerm: Parser, plus: Parser, ds: seq<int>, s: State)
    requires IsPlusOperator(plus)
    requires |ds| >= 1 && ValidState(s) && s.location == |s.input|
    ensures StepsAt(Op(pTerm, [plus]), ds, |ds|, s)
  {
    PlusStep(plus, s);
    OneOperatorStep(pTerm, plus, s);
  }

  lemma OpStepsThrough(pTerm: Parser, plus: Parser, ds: seq<int>)
    requires IsDigitTerm(pTerm) && IsPlusOperator(plus)
    requires |ds| >= 1 && IsDigits(ds)
    ensures StepsThrough(Op(pTerm, [plus]), ds)
  {
    forall k: nat, s | 1 <= k <= |ds| && ValidState(s) && s.input == SumText(ds) && s.location == 2 * k - 1
      ensures StepsAt(Op(pTerm, [plus]), ds, k, s)
    {
      if k < |ds| {
        StepAtOperator(pTerm, plus, ds, k, s);
      } else {
        StepAtEnd(pTerm, plus, ds, s);
      }
    }
  }

  lemma TermValuesCons(ts: seq<Value>, ds: seq<int>, k: nat)
    requires k < |ds|
    ensures ts + TermValues(ds[k..]) == (ts + [VPartial(Partial(BinOp("+"), VInt(ds[k])))]) + TermValues(ds[k + 1..])
  {
    assert TermValues(ds[k..]) == [VPartial(Partial(BinOp("+"), VInt(ds[k])))] + TermValues(ds[k + 1..]);
  }

  /** The repetition at an operator position before the last operand collects that operand's pair and goes on. */
  lemma RestAdvancesAt(step: Parser, ds: seq<int>, k: nat, s: State, ts: seq<Value>)
    requires |ds| >= 1 && IsDigits(ds) && StepsThrough(step, ds) && 1 <= k < |ds|
    requires ValidState(s) && s.input == SumText(ds) && s.location == 2 * k - 1
    ensures var o := Run(step, s);
      && ValidState(o.state) && o.state.input == s.input && o.state.location == s.location + 2
      && RestLoop(step, s, ts) == RestLoop(step, o.state, ts + [VPartial(Partial(BinOp("+"), VInt(ds[k])))])
  {
    assert StepsAt(step, ds, k, s);
    RestLoopAdvances(step, s, ts);
  }

  /** The repetition at the end of the text stops there with what it has collected. */
  lemma RestEndsAt(step: Parser, ds: seq<int>, s: State, ts: seq<Value>)
    requires |ds| >= 1 && IsDigits(ds) && StepsThrough(step, ds)
    requires ValidState(s) && s.input == SumText(ds) && s.location == 2 * |ds| - 1
    ensures var o := RestLoop(step, s, ts);
      o.status == Succeeded && o.result == VList(ts) && o.state.location == s.location
  {
    assert StepsAt(step, ds, |ds|, s);
    RestLoopStops(step, s, ts);
  }

  /**
   * The repetition after the first `(+, d)` pair, from the operator at `2k - 1`: it collects
   * the pairs of the remaining operands and stops at the end of input.
   */
  lemma {:induction false} SumRest(step: Parser, ds: seq<int>, k: nat, s: State, ts: seq<Value>)
    requires |ds| >= 1 && IsDigits(ds) && StepsThrough(step, ds) && 1 <= k <= |ds|
    requires ValidState(s) && s.input == SumText(ds) && s.location == 2 * k - 1
    ensures var o := RestLoop(step, s, ts);
      && o.status == Succeeded && o.result == VList(ts + TermValues(ds[k..])) && o.state.location == |s.input|
    decreases |ds| - k
  {
    if k == |ds| {
      RestEndsAt(step, ds, s, ts);
      assert ts + TermValues(ds[k..]) == ts;
    } else {
      RestAdvancesAt(step, ds, k, s, ts);
      var v := VPartial(Partial(BinOp("+"), VInt(ds[k])));
      SumRest(step, ds, k + 1, Run(step, s).state, ts + [v]);
      TermValuesCons(ts, ds, k);
    }
  }

  /**
   * The operators and operands after the first operand, from the operator at 1: with no
   * further operand they fail without consuming, otherwise they collect every pair.
   */
  lemma SumOperators(step: Parser, ds: seq<int>, s: State)
    requires |ds| >= 1 && IsDigits(ds) && StepsThrough(step, ds)
    requires ValidState(s) && s.input == SumText(ds) && s.location == 1
    ensures var w := Run(AtLeastOnce(step), s);
      && (|ds| == 1 ==> FailedInPlace(s, w))
      && (|ds| > 1 ==> w.status == Succeeded && w.result == VList(TermValues(ds[1..])) && w.state.location == |s.input|)
  {
    assert Run(AtLeastOnce(step), s) == RunBasic(AtLeastOnce(step), s) == RunAtLeastOnce(step, s);
    assert StepsAt(step, ds, 1, s);
    if |ds| > 1 {
      var first := Run(step, s);
      SumRest(step, ds, 2, first.state, [first.result]);
      TermValuesCons([], ds, 1);
    }
  }

  lemma PartialsOfTerms(xs: seq<int>)
    ensures Partials(TermValues(xs)) == Terms(xs)
  {
  }

  /**
   * The infix part of the left row after the first operand, with more operands to come: the
   * pairs folded to the left.
   */
  lemma LeftInfixMore(pTerm: Parser, plus: Parser, ds: seq<int>, t: State, z: Value)
    requires |ds| > 1 && IsDigits(ds) && StepsThrough(Op(pTerm, [plus]), ds)
    requires ValidState(t) && t.input == SumText(ds) && t.location == 1
    ensures var f := Run(InfixParser(pTerm, OperatorTableRow([], [plus], [], [], [])), t);
      && f.status == Succeeded && f.state.location == |t.input|
      && ApplyUn(AsUnFn(f.result), z) == LeftNested(z, Terms(ds[1..]))
  {
    var row := OperatorTableRow([], [plus], [], [], []);
    var xs := [InfixNParser(pTerm, []), InfixLParser(pTerm, [plus]), InfixRParser(pTerm, [])];
    InfixLaw(pTerm, row, t);
    EmptySlotFails(pTerm, t);
    AttemptsStep(xs, 0, t);
    var t1 := WithError(t, NoArgumentsError(t));
    SumOperators(Op(pTerm, [plus]), ds, t1);
    RunMap1Is(FoldLeft, AtLeastOnce(Op(pTerm, [plus])), t1);
    InfixLFolds(pTerm, [plus], t1, z);
    PartialsOfTerms(ds[1..]);
  }

  /** The infix part of the left row over a lone operand: nothing, the identity. */
  lemma LeftInfixOne(pTerm: Parser, plus: Parser, ds: seq<int>, t: State, z: Value)
    requires |ds| == 1 && IsDigits(ds) && StepsThrough(Op(pTerm, [plus]), ds)
    requires ValidState(t) && t.input == SumText(ds) && t.location == 1
    ensures var f := Run(InfixParser(pTerm, OperatorTableRow([], [plus], [], [], [])), t);
      && f.status == Succeeded && f.state.location == |t.input|
      && ApplyUn(AsUnFn(f.result), z) == LeftNested(z, Terms(ds[1..]))
  {
    var row := OperatorTableRow([], [plus], [], [], []);
    var xs := [InfixNParser(pTerm, []), InfixLParser(pTerm, [plus]), InfixRParser(pTerm, [])];
    InfixLaw(pTerm, row, t);
    EmptySlotFails(pTerm, t);
    AttemptsStep(xs, 0, t);
    var t1 := WithError(t, NoArgumentsError(t));
    SumOperators(Op(pTerm, [plus]), ds, t1);
    RunMap1Is(FoldLeft, AtLeastOnce(Op(pTerm, [plus])), t1);
    var t2 := Run(xs[1], t1).state;
    AttemptsStep(xs, 1, t1);
    EmptySlotFails(pTerm, t2);
    AttemptsStep(xs, 2, t2);
    assert ds[1..] == [];
  }

  /**
   * The infix part of the right row after the first operand, with more operands to come: the
   * pairs nested to the right.
   */
  lemma RightInfixMore(pTerm: Parser, plus: Parser, ds: seq<int>, t: State, z: Value)
    requires |ds| > 1 && IsDigits(ds) && StepsThrough(Op(pTerm, [plus]), ds)
    requires ValidState(t) && t.input == SumText(ds) && t.location == 1
    ensures var f := Run(InfixParser(pTerm, OperatorTableRow([], [], [plus], [], [])), t);
      && f.status == Succeeded && f.state.location == |t.input|
      && ApplyUn(AsUnFn(f.result), z) == RightNested(z, Terms(ds[1..]))
  {
    var row := OperatorTableRow([], [], [plus], [], []);
    var xs := [InfixNParser(pTerm, []), InfixLParser(pTerm, []), InfixRParser(pTerm, [plus])];
    InfixLaw(pTerm, row, t);
    EmptySlotFails(pTerm, t);
    AttemptsStep(xs, 0, t);
    var t1 := WithError(t, NoArgumentsError(t));
    EmptySlotFails(pTerm, t1);
    AttemptsStep(xs, 1, t1);
    var t2 := WithError(t1, NoArgumentsError(t1));
    SumOperators(Op(pTerm, [plus]), ds, t2);
    RunMap1Is(FoldRight, AtLeastOnce(Op(pTerm, [plus])), t2);
    InfixRNests(pTerm, [plus], t2, z);
    PartialsOfTerms(ds[1..]);
  }

  /** The infix part of the right row over a lone operand: nothing, the identity. */
  lemma RightInfixOne(pTerm: Parser, plus: Parser, ds: seq<int>, t: State, z: Value)
    requires |ds| == 1 && IsDigits(ds) && StepsThrough(Op(pTerm, [plus]), ds)
    requires ValidState(t) && t.input == SumText(ds) && t.location == 1
    ensures var f := Run(InfixParser(pTerm, OperatorTableRow([], [], [plus], [], [])), t);
      && f.status == Succeeded && f.state.location == |t.input|
      && ApplyUn(AsUnFn(f.result), z) == RightNested(z, Terms(ds[1..]))
  {
    var row := OperatorTableRow([], [], [plus], [], []);
    var xs := [InfixNParser(pTerm, []), InfixLParser(pTerm, []), InfixRParser(pTerm, [plus])];
    InfixLaw(pTerm, row, t);
    EmptySlotFails(pTerm, t);
    AttemptsStep(xs, 0, t);
    var t1 := WithError(t, NoArgumentsError(t));
    EmptySlotFails(pTerm, t1);
    AttemptsStep(xs, 1, t1);
    var t2 := WithError(t1, NoArgumentsError(t1));
    SumOperators(Op(pTerm, [plus]), ds, t2);
    RunMap1Is(FoldRight, AtLeastOnce(Op(pTerm, [plus])), t2);
    AttemptsStep(xs, 2, t2);
    assert ds[1..] == [];
  }

  /** The grouped overload with one group of one row is that row over the term. */
  lemma OneRow(term: Parser, row: OperatorTableRow)
    ensures BuildGrouped(term, [[row]]) == BuildRow(term, row)
  {
    MergedOne(row);
    var rows := FlattenTable([[row]]);
    assert rows[0] == Merged([[row]][0]) == row;
    assert rows == [row];
    assert rows[..0] == [];
    assert Build(term, rows) == BuildRow(Build(term, []), row);
  }

  /** The text starts with a lone digit, `ds[0]`. */
  lemma FirstDigit(ds: seq<int>, s: State)
    requires |ds| >= 1 && IsDigits(ds)
    requires ValidState(s) && s.input == SumText(ds) && s.location == 0
    ensures LoneDigit(s) && s.input[0] as int - '0' as int == ds[0]
  {
    assert SumText(ds)[0] == DigitFor(ds[0]);
    if |ds| > 1 {
      assert SumText(ds)[1] == '+';
    }
  }

  /** The infix part of the left row after the first operand. */
  lemma LeftInfix(pTerm: Parser, plus: Parser, ds: seq<int>, t: State, z: Value)
    requires IsDigitTerm(pTerm) && IsPlusOperator(plus) && |ds| >= 1 && IsDigits(ds)
    requires ValidState(t) && t.input == SumText(ds) && t.location == 1
    ensures var f := Run(InfixParser(pTerm, OperatorTableRow([], [plus], [], [], [])), t);
      && f.status == Succeeded && f.state.location == |t.input|
      && ApplyUn(AsUnFn(f.result), z) == LeftNested(z, Terms(ds[1..]))
  {
    OpStepsThrough(pTerm, plus, ds);
    if |ds| > 1 {
      LeftInfixMore(pTerm, plus, ds, t, z);
    } else {
      LeftInfixOne(pTerm, plus, ds, t, z);
    }
  }

  /** The infix part of the right row after the first operand. */
  lemma RightInfix(pTerm: Parser, plus: Parser, ds: seq<int>, t: State, z: Value)
    requires IsDigitTerm(pTerm) && IsPlusOperator(plus) && |ds| >= 1 && IsDigits(ds)
    requires ValidState(t) && t.input == SumText(ds) && t.location == 1
    ensures var f := Run(InfixParser(pTerm, OperatorTableRow([], [], [plus], [], [])), t);
      && f.status == Succeeded && f.state.location == |t.input|
      && ApplyUn(AsUnFn(f.result), z) == RightNested(z, Terms(ds[1..]))
  {
    OpStepsThrough(pTerm, plus, ds);
    if |ds| > 1 {
      RightInfixMore(pTerm, plus, ds, t, z);
    } else {
      RightInfixOne(pTerm, plus, ds, t, z);
    }
  }

  /** A digit term with one row of a left-associative '+' folds `d0+d1+...+dn` to the left. */
  lemma LeftRowSums(term: Parser, plus: Parser, ds: seq<int>, user: Value)
    requires IsDigitTerm(term) && IsPlusOperator(plus)
    requires |ds| >= 1 && IsDigits(ds)
    ensures var o := Run(BuildRow(term, OperatorTableRow([], [plus], [], [], [])), Initial(SumText(ds), user));
      && o.status == Succeeded && o.state.location == |SumText(ds)|
      && o.result == LeftNested(VInt(ds[0]), Terms(ds[1..]))
  {
    var row := OperatorTableRow([], [plus], [], [], []);
    var s := Initial(SumText(ds), user);
    RowLaw(term, row, s);
    PrefixedDigitTerm(term, row);
    var pTerm := PrefixedTerm(term, row);
    FirstDigit(ds, s);
    DigitStep(pTerm, s);
    LeftInfix(pTerm, plus, ds, Run(pTerm, s).state, VInt(ds[0]));
  }

  /** A digit term with one row of a right-associative '+' nests `d0+d1+...+dn` to the right. */
  lemma RightRowSums(term: Parser, plus: Parser, ds: seq<int>, user: Value)
    requires IsDigitTerm(term) && IsPlusOperator(plus)
    requires |ds| >= 1 && IsDigits(ds)
    ensures var o := Run(BuildRow(term, OperatorTableRow([], [], [plus], [], [])), Initial(SumText(ds), user));
      && o.status == Succeeded && o.state.location == |SumText(ds)|
      && o.result == RightNested(VInt(ds[0]), Terms(ds[1..]))
  {
    var row := OperatorTableRow([], [], [plus], [], []);
    var s := Initial(SumText(ds), user);
    RowLaw(term, row, s);
    PrefixedDigitTerm(term, row);
    var pTerm := PrefixedTerm(term, row);
    FirstDigit(ds, s);
    DigitStep(pTerm, s);
    RightInfix(pTerm, plus, ds, Run(pTerm, s).state, VInt(ds[0]));
  }

  /**
   * The benchmark's left-associative sum reads the whole input `d0+d1+...+dn` and builds
   * `((d0+d1)+...)+dn`.
   */
  lemma LeftSumLaw(ds: seq<int>, user: Value)
    requires |ds| >= 1 && IsDigits(ds)
    ensures var o := Run(LeftSum, Initial(SumText(ds), user));
      && o.status == Succeeded && o.state.location == |SumText(ds)|
      && o.result == LeftNested(VInt(ds[0]), Terms(ds[1..]))
  {
    OneRow(DecimalNum, LeftRow);
    NumIsDigitTerm();
    PlusIsPlusOperator();
    LeftRowSums(DecimalNum, Plus, ds, user);
  }

  /**
   * The benchmark's right-associative sum reads the whole input `d0+d1+...+dn` and builds
   * `d0+(d1+(...+dn))`.
   */
  lemma RightSumLaw(ds: seq<int>, user: Value)
    requires |ds| >= 1 && IsDigits(ds)
    ensures var o := Run(RightSum, Initial(SumText(ds), user));
      && o.status == Succeeded && o.state.location == |SumText(ds)|
      && o.result == RightNested(VInt(ds[0]), Terms(ds[1..]))
  {
    OneRow(DecimalNum, RightRow);
    NumIsDigitTerm();
    PlusIsPlusOperator();
    RightRowSums(DecimalNum, Plus, ds, user);
  }

  lemma {:induction false} SumAppend(xs: seq<int>, x: int)
    ensures Sum(xs + [x]) == Sum(xs) + x
    decreases |xs|
  {
    if |xs| == 0 {
      assert [x][1..] == [];
    } else {
      assert (xs + [x])[1..] == xs[1..] + [x];
      SumAppend(xs[1..], x);
    }
  }

  lemma TermsInit(xs: seq<int>)
    requires |xs| > 0
    ensures Terms(xs)[..|xs| - 1] == Terms(xs[..|xs| - 1])
  {
  }

  lemma {:induction false} LeftNestedAdds(z: Value, xs: seq<int>)
    ensures Eval(LeftNested(z, Terms(xs))) == Eval(z) + Sum(xs)
    decreases |xs|
  {
    if |xs| > 0 {
      var init, last := xs[..|xs| - 1], xs[|xs| - 1];
      TermsInit(xs);
      var inner := LeftNested(z, Terms(init));
      assert LeftNested(z, Terms(xs)) == VNode("+", [inner, VInt(last)]);
      LeftNestedAdds(z, init);
      assert init + [last] == xs;
      SumAppend(init, last);
    }
  }

  lemma {:induction false} RightNestedAdds(z: Value, xs: seq<int>)
    ensures Eval(RightNested(z, Terms(xs))) == Eval(z) + Sum(xs)
    decreases |xs|
  {
    if |xs| > 0 {
      assert Terms(xs)[1..] == Terms(xs[1..]);
      RightNestedAdds(VInt(xs[0]), xs[1..]);
    }
  }

  /** The left-associative sum parses `d0+d1+...+dn` to a tree that adds up to the sum of the digits. */
  lemma LeftSumAdds(ds: seq<int>, user: Value)
    requires |ds| >= 1 && IsDigits(ds)
    ensures Eval(Run(LeftSum, Initial(SumText(ds), user)).result) == Sum(ds)
  {
    LeftSumLaw(ds, user);
    LeftNestedAdds(VInt(ds[0]), ds[1..]);
  }

  /** The right-associative sum parses the same input to a tree with the same sum. */
  lemma RightSumAdds(ds: seq<int>, user: Value)
    requires |ds| >= 1 && IsDigits(ds)
    ensures Eval(Run(RightSum, Initial(SumText(ds), user)).result) == Sum(ds)
  {
    RightSumLaw(ds, user);
    RightNestedAdds(VInt(ds[0]), ds[1..]);
  }

  /** The digits 1, 2 and 3 are spelt "1+2+3". */
  lemma OneTwoThreeText()
    ensures SumText([1, 2, 3]) == "1+2+3"
  {
    var t := SumText([1, 2, 3]);
    assert t[0] == '1' && t[2] == '2' && t[4] == '3';
  }

  /** The pairs of 2 and 3, folded onto 1 either way. */
  lemma OneTwoThreeTrees()
    ensures LeftNested(VInt(1), Terms([1, 2, 3][1..])) == VNode("+", [VNode("+", [VInt(1), VInt(2)]), VInt(3)])
    ensures RightNested(VInt(1), Terms([1, 2, 3][1..])) == VNode("+", [VInt(1), VNode("+", [VInt(2), VInt(3)])])
  {
    var ts := Terms([1, 2, 3][1..]);
    assert ts == [Partial(BinOp("+"), VInt(2)), Partial(BinOp("+"), VInt(3))];
    assert ts[..1] == [Partial(BinOp("+"), VInt(2))];
    assert ts[..1][..0] == [];
    assert ts[1..] == [Partial(BinOp("+"), VInt(3))];
    assert ts[1..][1..] == [];
  }

  /** "1+2+3" to the left: `(1+2)+3`. */
  lemma LeftOneTwoThree()
    ensures Run(LeftSum, Initial("1+2+3", VUnit)).result == VNode("+", [VNode("+", [VInt(1), VInt(2)]), VInt(3)])
  {
    OneTwoThreeText();
    LeftSumLaw([1, 2, 3], VUnit);
    OneTwoThreeTrees();
  }

  /** "1+2+3" to the right: `1+(2+3)`. */
  lemma RightOneTwoThree()
    ensures Run(RightSum, Initial("1+2+3", VUnit)).result == VNode("+", [VInt(1), VNode("+", [VInt(2), VInt(3)])])
  {
    OneTwoThreeText();
    RightSumLaw([1, 2, 3], VUnit);
    OneTwoThreeTrees();
  }

  /** The digits 1 and 1 are spelt "1+1", and either associativity adds them in one node. */
  lemma OnePlusOne()
    ensures SumText([1, 1]) == "1+1"
    ensures LeftNested(VInt(1), Terms([1, 1][1..])) == VNode("+", [VInt(1), VInt(1)])
    ensures RightNested(VInt(1), Terms([1, 1][1..])) == VNode("+", [VInt(1), VInt(1)])
  {
    var t := SumText([1, 1]);
    assert t[0] == '1' && t[2] == '1';
    var ts := Terms([1, 1][1..]);
    assert ts == [Partial(BinOp("+"), VInt(1))];
    assert ts[..0] == [] && ts[1..] == [];
  }

  /** The benchmark's `ParseOrThrow("1+1")` with the left-associative row: `1+1`. */
  lemma LeftBench(render: ParseError -> string)
    ensures ParseOrThrow(LeftSum, "1+1", VUnit, render) == Success(VNode("+", [VInt(1), VInt(1)]))
  {
    OnePlusOne();
    LeftSumLaw([1, 1], VUnit);
    ParseOrThrowLaw(LeftSum, "1+1", VUnit, render);
  }

  /** The same with the right-associative row. */
  lemma RightBench(render: ParseError -> string)
    ensures ParseOrThrow(RightSum, "1+1", VUnit, render) == Success(VNode("+", [VInt(1), VInt(1)]))
  {
    OnePlusOne();
    RightSumLaw([1, 1], VUnit);
    ParseOrThrowLaw(RightSum, "1+1", VUnit, render);
  }
}
