/**
 * The integer parsers: digit recognition and digit values for a base, the Horner fold that
 * IntChainer and LongChainer perform with C#'s wrap-around int and long arithmetic, the sign
 * parser, and the labelled Int/UnsignedInt/Long/UnsignedLong parsers built from them.
 */
module Numbers {
  import opened Wrappers
  import opened Values
  import opened ParseStates
  import opened Parsers
  import opened Laws

  // ---------------------------------------------------------------------------------------
  // Digits

  /** DigitChar's token predicate for `base`. */
  predicate DigitAccepted(base: int, c: char)
  {
    if base <= 10 then '0' as int <= c as int < '0' as int + base
    else
      || ('0' <= c <= '9')
      || ('A' as int <= c as int < 'A' as int + base - 10)
      || ('a' as int <= c as int < 'a' as int + base - 10)
  }

  /** GetDigitValue for a base up to 10, GetLetterOrDigitValue above. */
  function DigitValue(base: int, c: char): int
  {
    if base <= 10 || ('0' <= c <= '9') then c as int - '0' as int
    else if 'A' <= c <= 'Z' then c as int - 'A' as int + 10
    else c as int - 'a' as int + 10
  }

  /** The upper-case digit for a value below 36. */
  function DigitFor(v: nat): (c: char)
    requires v < 36
    ensures '0' <= c <= '9' || 'A' <= c <= 'Z'
  {
    if v < 10 then ('0' as int + v) as char else ('A' as int + v - 10) as char
  }

  /** For a base from 1 to 36, every accepted character denotes a digit below the base. */
  lemma DigitValueInRange(base: int, c: char)
    requires 1 <= base <= 36 && DigitAccepted(base, c)
    ensures 0 <= DigitValue(base, c) < base
  {
  }

  /**
   * For a base from 1 to 36, every value below the base has a digit, which is accepted and
   * denotes that value; and an accepted character is that digit, or its lower-case form.
   */
  lemma DigitRoundTrip(base: int, v: nat, c: char)
    requires 1 <= base <= 36
    ensures v < base ==> DigitAccepted(base, DigitFor(v)) && DigitValue(base, DigitFor(v)) == v
    ensures DigitAccepted(base, c) ==>
      var d := DigitFor(DigitValue(base, c));
      d == c || ('a' <= c <= 'z' && d as int == c as int - 32)
  {
  }

  // ---------------------------------------------------------------------------------------
  // Fixed-width arithmetic

  /** C#'s int and long. */
  datatype Width = Int32 | Int64

  function Modulus(w: Width): int
  {
    match w
    case Int32 => 0x1_0000_0000
    case Int64 => 0x1_0000_0000_0000_0000
  }

  /** The value of `x` after an unchecked conversion to the two's complement width `w`. */
  function Wrap(w: Width, x: int): (r: int)
    ensures -Modulus(w) / 2 <= r < Modulus(w) / 2
    ensures (r - x) % Modulus(w) == 0
  {
    var half := Modulus(w) / 2;
    (x + half) % Modulus(w) - half
  }

  /** Values of the width are left as they are. */
  lemma WrapInRange(w: Width, x: int)
    requires -Modulus(w) / 2 <= x < Modulus(w) / 2
    ensures Wrap(w, x) == x
  {
  }

  /** Wrapping depends only on the value modulo 2^width. */
  lemma WrapCongruent(w: Width, x: int, y: int)
    requires (x - y) % Modulus(w) == 0
    ensures Wrap(w, x) == Wrap(w, y)
  {
    var m := Modulus(w);
    var k := (x - y) / m;
    assert x == y + k * m;
    assert (x + m / 2) % m == (y + m / 2) % m by {
      ModShift(w, y + m / 2, k);
    }
  }

  lemma ModShift(w: Width, a: int, k: int)
    ensures (a + k * Modulus(w)) % Modulus(w) == a % Modulus(w)
  {
    match w
    case Int32 =>
    case Int64 =>
  }

  /** One wrapped multiply-add: wrapping the carried value first changes nothing. */
  lemma WrapMultiplyAdd(w: Width, a: int, b: int, v: int)
    ensures Wrap(w, Wrap(w, a) * b + v) == Wrap(w, a * b + v)
  {
    var m := Modulus(w);
    var a' := Wrap(w, a);
    var k := (a' - a) / m;
    assert a' == a + k * m;
    assert a' * b + v == a * b + v + (k * b) * m;
    assert ((a' * b + v) - (a * b + v)) % m == 0 by {
      ModShift(w, 0, k * b);
    }
    WrapCongruent(w, a' * b + v, a * b + v);
  }

  // ---------------------------------------------------------------------------------------
  // The Horner fold

  function Pow(base: int, n: nat): int
  {
    if n == 0 then 1 else base * Pow(base, n - 1)
  }

  /** The number the digits denote, most significant first: the sum of `ds[i] * base^(n-1-i)`. */
  function Positional(base: int, ds: seq<int>): int
  {
    if |ds| == 0 then 0 else ds[0] * Pow(base, |ds| - 1) + Positional(base, ds[1..])
  }

  /** `r := r*base + d` over the digits, from 0, in unbounded integers. */
  function Horner(base: int, ds: seq<int>): int
  {
    if |ds| == 0 then 0 else Horner(base, ds[..|ds| - 1]) * base + ds[|ds| - 1]
  }

  /** What a chainer of width `w` returns after the digits: every step wraps. */
  function Chained(w: Width, base: int, ds: seq<int>): int
  {
    if |ds| == 0 then 0 else Wrap(w, Chained(w, base, ds[..|ds| - 1]) * base + ds[|ds| - 1])
  }

  lemma {:induction false} PositionalAppend(base: int, ds: seq<int>, d: int)
    ensures Positional(base, ds + [d]) == Positional(base, ds) * base + d
    decreases |ds|
  {
    if |ds| == 0 {
      assert ([] + [d])[1..] == [];
    } else {
      var rest := ds[1..];
      assert (ds + [d])[1..] == rest + [d];
      PositionalAppend(base, rest, d);
      var p := Pow(base, |rest|);
      calc {
        Positional(base, ds + [d]);
        ds[0] * Pow(base, |rest| + 1) + Positional(base, rest + [d]);
        ds[0] * (base * p) + (Positional(base, rest) * base + d);
        { assert ds[0] * (base * p) == (ds[0] * p) * base; }
        (ds[0] * p) * base + Positional(base, rest) * base + d;
        (ds[0] * p + Positional(base, rest)) * base + d;
      }
    }
  }

  /** The Horner fold computes the positional value of the digits. */
  lemma {:induction false} HornerIsPositional(base: int, ds: seq<int>)
    ensures Horner(base, ds) == Positional(base, ds)
    decreases |ds|
  {
    if |ds| > 0 {
      var init := ds[..|ds| - 1];
      HornerIsPositional(base, init);
      PositionalAppend(base, init, ds[|ds| - 1]);
      assert init + [ds[|ds| - 1]] == ds;
    }
  }

  /** Overflow is not checked: the wrapped fold is the exact value wrapped once, at the end. */
  lemma {:induction false} ChainedIsWrappedHorner(w: Width, base: int, ds: seq<int>)
    ensures Chained(w, base, ds) == Wrap(w, Horner(base, ds))
    decreases |ds|
  {
    if |ds| > 0 {
      var init := ds[..|ds| - 1];
      ChainedIsWrappedHorner(w, base, init);
      WrapMultiplyAdd(w, Horner(base, init), base, ds[|ds| - 1]);
    }
  }

  /** `n` digits below the base denote a number below base^n. */
  lemma {:induction false} HornerBound(base: int, ds: seq<int>)
    requires base >= 1 && forall i :: 0 <= i < |ds| ==> 0 <= ds[i] < base
    ensures 0 <= Horner(base, ds) < Pow(base, |ds|)
    decreases |ds|
  {
    if |ds| > 0 {
      var init := ds[..|ds| - 1];
      HornerBound(base, init);
      HornerStepBound(Horner(base, init), Pow(base, |init|), base, ds[|ds| - 1]);
    }
  }

  lemma HornerStepBound(h: int, p: int, base: int, d: int)
    requires 0 <= h < p && 0 <= d < base
    ensures 0 <= h * base + d < base * p
  {
    MultiplyMonotonic(h, p - 1, base);
    MultiplyMonotonic(0, h, base);
    assert (p - 1) * base == base * p - base;
  }

  lemma MultiplyMonotonic(a: int, b: int, c: int)
    requires a <= b && 0 <= c
    ensures a * c <= b * c
  {
    assert b * c - a * c == (b - a) * c;
  }

  /**
   * IntChainer and LongChainer: the running value of ChainAtLeastOnce over digit values,
   * `_result = _result * _base + value` in the chainer's width.
   */
  class Chainer {
    const width: Width
    const base: int
    var result: int

    constructor(width: Width, base: int)
      ensures this.width == width && this.base == base && result == 0
    {
      this.width := width;
      this.base := base;
      result := 0;
    }

    method Apply(value: int)
      modifies this
      ensures result == Wrap(width, old(result) * base + value)
    {
      result := Wrap(width, result * base + value);
    }

    function GetResult(): int
      reads this
    {
      result
    }
  }

  /** A fresh chainer fed the digits in order returns the wrapped Horner value. */
  method ChainDigits(w: Width, base: int, ds: seq<int>) returns (r: int)
    ensures r == Chained(w, base, ds) == Wrap(w, Horner(base, ds))
  {
    var chainer := new Chainer(w, base);
    for i := 0 to |ds|
      invariant chainer.result == Chained(w, base, ds[..i])
    {
      assert ds[..i + 1][..i] == ds[..i];
      chainer.Apply(ds[i]);
    }
    assert ds[..|ds|] == ds;
    r := chainer.GetResult();
    ChainedIsWrappedHorner(w, base, ds);
  }

  // ---------------------------------------------------------------------------------------
  // The parsers

  /** `Char(c)`: the one token `c`. */
  function Char(c: char): Parser
  {
    Token(x => x == c, [TokensExpected([c])])
  }

  /** DigitChar(base): one accepted character, returning its digit value. */
  function DigitChar(base: int): Parser
  {
    Map1(v => VInt(DigitValue(base, AsChar(v))), Token(c => DigitAccepted(base, c), []))
  }

  /** The ints inside a list of values. */
  function Ints(vs: seq<Value>): (ds: seq<int>)
    ensures |ds| == |vs| && forall i :: 0 <= i < |vs| ==> ds[i] == AsInt(vs[i])
  {
    seq(|vs|, i requires 0 <= i < |vs| => AsInt(vs[i]))
  }

  /** The digit values of some characters. */
  function DigitsOf(base: int, cs: seq<char>): (ds: seq<int>)
    ensures |ds| == |cs| && forall i :: 0 <= i < |cs| ==> ds[i] == DigitValue(base, cs[i])
  {
    seq(|cs|, i requires 0 <= i < |cs| => DigitValue(base, cs[i]))
  }

  function NatToString(n: nat): string
  {
    if n < 10 then [('0' as int + n) as char] else NatToString(n / 10) + [('0' as int + n % 10) as char]
  }

  function IntToString(i: int): string
  {
    if i < 0 then "-" + NatToString(-i) else NatToString(i)
  }

  /** `$"base-{base} number"`. */
  function BaseLabel(base: int): string
  {
    "base-" + IntToString(base) + " number"
  }

  /** UnsignedInt(base) and UnsignedLong(base): the digits chained in the width, labelled. */
  function Unsigned(w: Width, base: int): Parser
  {
    WithExpected(Map1(v => VInt(Chained(w, base, Ints(AsList(v)))), AtLeastOnce(DigitChar(base))),
                 [LabelExpected(BaseLabel(base))])
  }

  /** `Sign`: `Char('+').ThenReturn(1).Or(Char('-').ThenReturn(-1)).Or(Return(1))`, one flat OneOf. */
  const Sign: Parser := OneOf([Map1(_ => VInt(1), Char('+')), Map1(_ => VInt(-1), Char('-')), Return(VInt(1))])

  /** Int(base) and Long(base): the sign times the unsigned number, in the width, labelled. */
  function Signed(w: Width, base: int): Parser
  {
    WithExpected(Map2((sign, num) => VInt(Wrap(w, AsInt(sign) * AsInt(num))), Sign, Unsigned(w, base)),
                 [LabelExpected(BaseLabel(base))])
  }

  function UnsignedInt(base: int): Parser { Unsigned(Int32, base) }
  function UnsignedLong(base: int): Parser { Unsigned(Int64, base) }
  function Int(base: int): Parser { Signed(Int32, base) }
  function Long(base: int): Parser { Signed(Int64, base) }

  const DecimalNum: Parser := WithExpected(Int(10), [LabelExpected("number")])
  const LongNum: Parser := WithExpected(Long(10), [LabelExpected("number")])
  const OctalNum: Parser := WithExpected(Int(8), [LabelExpected("octal number")])
  const HexNum: Parser := WithExpected(Int(16), [LabelExpected("hexadecimal number")])

  /** The labels Int and UnsignedInt give themselves for the common bases. */
  lemma BaseLabels()
    ensures BaseLabel(10) == "base-10 number" && BaseLabel(8) == "base-8 number" && BaseLabel(16) == "base-16 number"
  {
    assert NatToString(1) == "1" && NatToString(0) == "0" && NatToString(6) == "6";
    assert NatToString(10) == "10" && NatToString(16) == "16";
  }

  /** Where a run of digits of `base` starting at `k` ends. */
  function DigitsEnd(input: seq<char>, k: nat, base: int): (e: nat)
    requires k <= |input|
    ensures k <= e <= |input|
    ensures forall j :: k <= j < e ==> DigitAccepted(base, input[j])
    ensures e == |input| || !DigitAccepted(base, input[e])
    decreases |input| - k
  {
    if k == |input| || !DigitAccepted(base, input[k]) then k else DigitsEnd(input, k + 1, base)
  }

  /** The state a failed token parser leaves at `s`: the error names the current token, or end of input. */
  function TokenFailedAt(s: State): State
  {
    WithError(s, InternalError(CurrentToken(s), s.location == |s.input|, s.location, None))
  }

  /** DigitChar reads one accepted character as its digit value, and otherwise fails without consuming. */
  lemma DigitCharLaw(base: int, s: State)
    requires ValidState(s)
    ensures var o := Run(DigitChar(base), s);
      && (s.location < |s.input| && DigitAccepted(base, s.input[s.location]) ==>
            o == Outcome(Succeeded, VInt(DigitValue(base, s.input[s.location])), Advanced(s, 1), []))
      && (!(s.location < |s.input| && DigitAccepted(base, s.input[s.location])) ==>
            o == Outcome(Failed, VUnit, TokenFailedAt(s), []))
  {
    var t := Token(c => DigitAccepted(base, c), []);
    RunMap1Is(v => VInt(DigitValue(base, AsChar(v))), t, s);
    assert Run(t, s) == RunBasic(t, s);
  }

  /** The repetition over DigitChar reads the whole run of digits and stops where it ends. */
  lemma {:induction false} DigitsRun(base: int, s: State, ts: seq<Value>)
    requires ValidState(s)
    ensures var e := DigitsEnd(s.input, s.location, base);
      RestLoop(DigitChar(base), s, ts)
        == Outcome(Succeeded, VList(ts + DigitResults(base, s.input[s.location..e])), TokenFailedAt(s.(location := e)), [])
    decreases |s.input| - s.location
  {
    var e := DigitsEnd(s.input, s.location, base);
    if e > s.location {
      var x := VInt(DigitValue(base, s.input[s.location]));
      var s' := Advanced(s, 1);
      DigitsRunStep(base, s, ts);
      DigitsRun(base, s', ts + [x]);
      DigitResultsAppend(base, s.input, s.location, e, ts);
      assert s'.(location := e) == s.(location := e);
    } else {
      DigitsRunEnd(base, s, ts);
    }
  }

  /** One digit read: the loop goes on after it, and the run still ends at the same place. */
  lemma DigitsRunStep(base: int, s: State, ts: seq<Value>)
    requires ValidState(s) && DigitsEnd(s.input, s.location, base) > s.location
    ensures var x := VInt(DigitValue(base, s.input[s.location]));
      && RestLoop(DigitChar(base), s, ts) == RestLoop(DigitChar(base), Advanced(s, 1), ts + [x])
      && DigitsEnd(s.input, s.location + 1, base) == DigitsEnd(s.input, s.location, base)
  {
    DigitCharLaw(base, s);
    RestLoopAdvances(DigitChar(base), s, ts);
  }

  /** No digit: the loop ends with what it has. */
  lemma DigitsRunEnd(base: int, s: State, ts: seq<Value>)
    requires ValidState(s) && DigitsEnd(s.input, s.location, base) == s.location
    ensures RestLoop(DigitChar(base), s, ts) == Outcome(Succeeded, VList(ts), TokenFailedAt(s), [])
  {
    DigitCharLaw(base, s);
    RestLoopStops(DigitChar(base), s, ts);
  }

  lemma DigitResultsCons(base: int, input: seq<char>, k: nat, e: nat)
    requires k < e <= |input|
    ensures [VInt(DigitValue(base, input[k]))] + DigitResults(base, input[k + 1..e]) == DigitResults(base, input[k..e])
  {
  }

  lemma DigitResultsAppend(base: int, input: seq<char>, k: nat, e: nat, ts: seq<Value>)
    requires k < e <= |input|
    ensures (ts + [VInt(DigitValue(base, input[k]))]) + DigitResults(base, input[k + 1..e]) == ts + DigitResults(base, input[k..e])
  {
    DigitResultsCons(base, input, k, e);
  }

  /** The digit values of some characters, as values. */
  function DigitResults(base: int, cs: seq<char>): (vs: seq<Value>)
    ensures |vs| == |cs| && forall i :: 0 <= i < |cs| ==> vs[i] == VInt(DigitValue(base, cs[i]))
  {
    seq(|cs|, i requires 0 <= i < |cs| => VInt(DigitValue(base, cs[i])))
  }

  /** One or more digits: the whole run when there is one, otherwise DigitChar's failure. */
  lemma DigitsAtLeastOnce(base: int, s: State)
    requires ValidState(s)
    ensures var e := DigitsEnd(s.input, s.location, base); var o := Run(AtLeastOnce(DigitChar(base)), s);
      && (e > s.location ==>
            o == Outcome(Succeeded, VList(DigitResults(base, s.input[s.location..e])), TokenFailedAt(s.(location := e)), []))
      && (e == s.location ==> o == Outcome(Failed, VUnit, TokenFailedAt(s), []))
  {
    var d := DigitChar(base);
    assert Run(AtLeastOnce(d), s) == RunBasic(AtLeastOnce(d), s) == RunAtLeastOnce(d, s);
    DigitCharLaw(base, s);
    var e := DigitsEnd(s.input, s.location, base);
    if e > s.location {
      var first := Run(d, s);
      DigitsRun(base, first.state, [first.result]);
      assert DigitsEnd(s.input, first.state.location, base) == e;
      assert [first.result] + DigitResults(base, s.input[s.location + 1..e]) == DigitResults(base, s.input[s.location..e]);
    }
  }

  /**
   * UnsignedInt(base) and UnsignedLong(base) read the longest run of digits and return its
   * positional value wrapped to the width; with no digit they fail without consuming and the
   * caller receives only the label `base-{base} number`.
   */
  lemma UnsignedLaw(w: Width, base: int, s: State)
    requires ValidState(s)
    ensures var e := DigitsEnd(s.input, s.location, base); var o := Run(Unsigned(w, base), s);
      && (e > s.location ==>
            o == Outcome(Succeeded, VInt(Wrap(w, Positional(base, DigitsOf(base, s.input[s.location..e])))),
                         TokenFailedAt(s.(location := e)), []))
      && (e == s.location ==> o == Outcome(Failed, VUnit, TokenFailedAt(s), [LabelExpected(BaseLabel(base))]))
  {
    var f := (v: Value) => VInt(Chained(w, base, Ints(AsList(v))));
    var m := Map1(f, AtLeastOnce(DigitChar(base)));
    var u := WithExpected(m, [LabelExpected(BaseLabel(base))]);
    assert Run(u, s) == RunControl(u, s);
    RunMap1Is(f, AtLeastOnce(DigitChar(base)), s);
    DigitsAtLeastOnce(base, s);
    var e := DigitsEnd(s.input, s.location, base);
    var ds := DigitsOf(base, s.input[s.location..e]);
    assert Ints(DigitResults(base, s.input[s.location..e])) == ds;
    ChainedIsWrappedHorner(w, base, ds);
    HornerIsPositional(base, ds);
  }

  /** `Char(c).ThenReturn(k)` reads `c` and returns `k`, and otherwise fails without consuming. */
  lemma CharReturnsLaw(c: char, k: int, s: State)
    requires ValidState(s)
    ensures var o := Run(Map1(_ => VInt(k), Char(c)), s);
      && (s.location < |s.input| && s.input[s.location] == c ==> o == Outcome(Succeeded, VInt(k), Advanced(s, 1), []))
      && (!(s.location < |s.input| && s.input[s.location] == c) ==>
            o.status == Failed && o.state == TokenFailedAt(s) && o.added == [TokensExpected([c])])
  {
    RunMap1Is(_ => VInt(k), Char(c), s);
    assert Run(Char(c), s) == RunBasic(Char(c), s);
  }

  /** The sign at the cursor and how many characters it takes: '+', '-', or none. */
  function SignAt(s: State): (int, nat)
  {
    if s.location < |s.input| && s.input[s.location] == '+' then (1, 1)
    else if s.location < |s.input| && s.input[s.location] == '-' then (-1, 1)
    else (1, 0)
  }

  /** The first two alternatives of Sign, run where they are tried. */
  lemma SignFirst(s: State)
    requires ValidState(s)
    ensures var alts := Sign.alts; var o1 := Run(alts[0], s);
      && Run(Sign, s) == (if FailedInPlace(s, o1) then OneOfLoop(alts, 1, o1.state, false, o1.state.error, o1.added) else o1.(added := []))
  {
    var alts := Sign.alts;
    RunOneOfIsLoop(alts, s);
    var o1 := Run(alts[0], s);
    if FailedInPlace(s, o1) {
      OneOfLoopStep(alts, 0, s, true, NoArgumentsError(s), []);
      assert [] + o1.added == o1.added;
    }
  }

  lemma SignSecond(s: State, err: InternalError, child: seq<Expected>)
    requires ValidState(s)
    ensures var alts := Sign.alts; var o2 := Run(alts[1], s);
      && OneOfLoop(alts, 1, s, false, err, child)
           == (if FailedInPlace(s, o2) then OneOfLoop(alts, 2, o2.state, false, if o2.state.error.errorLocation > err.errorLocation then o2.state.error else err, child + o2.added) else o2.(added := []))
  {
    var alts := Sign.alts;
    var o2 := Run(alts[1], s);
    if FailedInPlace(s, o2) {
      OneOfLoopStep(alts, 1, s, false, err, child);
    }
  }

  /** Sign returns 1 after '+', -1 after '-', and 1 without consuming otherwise. */
  lemma SignLaw(s: State)
    requires ValidState(s)
    ensures var o := Run(Sign, s);
      && o.status == Succeeded && o.result == VInt(SignAt(s).0)
      && o.state.location == s.location + SignAt(s).1 && o.added == []
  {
    SignFirst(s);
    CharReturnsLaw('+', 1, s);
    var o1 := Run(Sign.alts[0], s);
    if FailedInPlace(s, o1) {
      SignAfterPlus(s, o1.state, o1.added);
    }
  }

  /** Sign once '+' is not there: '-' gives -1, and otherwise Return(1) runs. */
  lemma SignAfterPlus(s: State, s1: State, child: seq<Expected>)
    requires ValidState(s) && ValidState(s1) && s1.location == s.location && s1.input == s.input
    requires !(s.location < |s.input| && s.input[s.location] == '+')
    ensures var o := OneOfLoop(Sign.alts, 1, s1, false, s1.error, child);
      && o.status == Succeeded && o.result == VInt(SignAt(s).0)
      && o.state.location == s.location + SignAt(s).1 && o.added == []
  {
    var alts := Sign.alts;
    SignSecond(s1, s1.error, child);
    CharReturnsLaw('-', -1, s1);
    var o2 := Run(alts[1], s1);
    if FailedInPlace(s1, o2) {
      var s2 := o2.state;
      assert Run(Return(VInt(1)), s2) == RunPrimitive(Return(VInt(1)), s2);
    }
  }

  /**
   * Int(base) and Long(base): the sign, then the longest run of digits after it; the result is
   * the sign times the digits' positional value, wrapped to the width. With no digit after the
   * sign they fail there, after the sign, and the caller receives only the label.
   */
  lemma SignedLaw(w: Width, base: int, s: State)
    requires ValidState(s)
    ensures var t := s.location + SignAt(s).1;
      t <= |s.input| &&
      var e := DigitsEnd(s.input, t, base); var o := Run(Signed(w, base), s);
      && (e > t ==>
            && o.status == Succeeded && o.state.location == e && o.added == []
            && o.result == VInt(Wrap(w, SignAt(s).0 * Positional(base, DigitsOf(base, s.input[t..e])))))
      && (e == t ==> o.status == Failed && o.state.location == t && o.added == [LabelExpected(BaseLabel(base))])
  {
    SignedSteps(w, base, s);
    var s1 := Run(Sign, s).state;
    UnsignedLaw(w, base, s1);
    var t := s.location + SignAt(s).1;
    var e := DigitsEnd(s.input, t, base);
    if e > t {
      SignTimesWrapped(w, SignAt(s).0, Positional(base, DigitsOf(base, s.input[t..e])));
    }
  }

  /** Int(base) and Long(base) run Sign, then the unsigned number where Sign stopped. */
  lemma SignedSteps(w: Width, base: int, s: State)
    requires ValidState(s)
    ensures var o1 := Run(Sign, s); var o := Run(Signed(w, base), s);
      && o1.status == Succeeded && o1.result == VInt(SignAt(s).0)
      && o1.state.location == s.location + SignAt(s).1 && o1.added == []
      && var o2 := Run(Unsigned(w, base), o1.state);
      && o.status == o2.status && o.state == o2.state
      && o.added == (if o2.status == Failed then [LabelExpected(BaseLabel(base))] else [])
      && (o2.status == Succeeded ==> o.result == VInt(Wrap(w, SignAt(s).0 * AsInt(o2.result))))
  {
    var f := (sign: Value, num: Value) => VInt(Wrap(w, AsInt(sign) * AsInt(num)));
    var m := Map2(f, Sign, Unsigned(w, base));
    var p := WithExpected(m, [LabelExpected(BaseLabel(base))]);
    assert Run(p, s) == RunControl(p, s);
    SignLaw(s);
    Map2Law(f, Sign, Unsigned(w, base), s);
  }

  /** `sign * num` in the width: wrapping `num` first changes nothing. */
  lemma SignTimesWrapped(w: Width, sign: int, h: int)
    ensures Wrap(w, sign * Wrap(w, h)) == Wrap(w, sign * h)
  {
    WrapMultiplyAdd(w, h, sign, 0);
    assert Wrap(w, h) * sign + 0 == sign * Wrap(w, h);
    assert h * sign + 0 == sign * h;
  }
}
