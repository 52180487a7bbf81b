/**
 * What the combinators promise, stated over `Run` and proved for all inputs.
 */
module Laws {
  import opened Wrappers
  import opened Values
  import opened ParseStates
  import opened Text
  import opened Parsers
  import opened Combinators

  // ---------------------------------------------------------------------------------------
  // OneOf

  /**
   * The alternatives from `i` on that fail without consuming input, each run where the
   * previous one stopped. OneOf's loop tries exactly these before it decides.
   */
  function Attempts(alts: seq<Parser>, i: nat, s: State): (r: seq<Outcome>)
    requires i <= |alts| && ValidState(s)
    ensures |r| <= |alts| - i
    ensures forall k :: 0 <= k < |r| ==>
      && r[k].status == Failed && ValidState(r[k].state) && r[k].state.location == s.location
      && r[k].state.bookmarks == s.bookmarks && r[k].state.input == s.input
    decreases |alts| - i
  {
    if i == |alts| then []
    else
      var o := Run(alts[i], s);
      if o.status == Failed && o.state.location == s.location then [o] + Attempts(alts, i + 1, o.state)
      else []
  }

  /** The state the last attempt left, or `s` when there was none. */
  function Reached(s: State, r: seq<Outcome>): State
  {
    if |r| == 0 then s else r[|r| - 1].state
  }

  /** Every attempt's expected entries, in order. */
  function AllAdded(r: seq<Outcome>): seq<Expected>
  {
    if |r| == 0 then [] else r[0].added + AllAdded(r[1..])
  }

  /** What OneOf does with the alternative that ends the search: success and exceptions forward nothing. */
  function Decided(o: Outcome): Outcome
  {
    if o.status == Failed then o else o.(added := [])
  }

  lemma {:induction false} AttemptsStep(alts: seq<Parser>, i: nat, s: State)
    requires i < |alts| && ValidState(s)
    requires Run(alts[i], s).status == Failed && Run(alts[i], s).state.location == s.location
    ensures var r := Attempts(alts, i, s); var o := Run(alts[i], s); var r' := Attempts(alts, i + 1, o.state);
      && r == [o] + r' && r[1..] == r' && Reached(s, r) == Reached(o.state, r')
      && AllAdded(r) == o.added + AllAdded(r')
  {
    var r := Attempts(alts, i, s);
    var o := Run(alts[i], s);
    var r' := Attempts(alts, i + 1, o.state);
    assert r == [o] + r';
    assert r[1..] == r';
  }

  /**
   * When an alternative ends the search (it succeeds, throws, or fails after consuming input),
   * OneOf's loop returns that alternative's outcome and no later alternative runs.
   */
  lemma {:induction false} OneOfLoopDecides(alts: seq<Parser>, i: nat, s: State, firstTime: bool, err: InternalError, child: seq<Expected>)
    requires i <= |alts| && ValidState(s)
    requires i + |Attempts(alts, i, s)| < |alts|
    ensures var r := Attempts(alts, i, s);
      OneOfLoop(alts, i, s, firstTime, err, child) == Decided(Run(alts[i + |r|], Reached(s, r)))
    decreases |alts| - i
  {
    var o := Run(alts[i], s);
    if o.status == Failed && o.state.location == s.location {
      AttemptsStep(alts, i, s);
      var err' := if firstTime || o.state.error.errorLocation > err.errorLocation then o.state.error else err;
      OneOfLoopDecides(alts, i + 1, o.state, false, err', child + o.added);
    }
  }

  /** One iteration of OneOf's loop over an alternative that failed without consuming input. */
  lemma OneOfLoopStep(alts: seq<Parser>, i: nat, s: State, firstTime: bool, err: InternalError, child: seq<Expected>)
    requires i < |alts| && ValidState(s)
    requires Run(alts[i], s).status == Failed && Run(alts[i], s).state.location == s.location
    ensures var o := Run(alts[i], s);
      var err' := if firstTime || o.state.error.errorLocation > err.errorLocation then o.state.error else err;
      OneOfLoop(alts, i, s, firstTime, err, child) == OneOfLoop(alts, i + 1, o.state, false, err', child + o.added)
  {
  }

  /**
   * When every alternative from `i` on fails without consuming input, the loop fails where it
   * started and forwards all their expected entries in order.
   */
  lemma {:induction false} OneOfLoopAllFail(alts: seq<Parser>, i: nat, s: State, firstTime: bool, err: InternalError, child: seq<Expected>)
    requires i <= |alts| && ValidState(s)
    requires i + |Attempts(alts, i, s)| == |alts|
    ensures var r := Attempts(alts, i, s); var o := OneOfLoop(alts, i, s, firstTime, err, child);
      && o.status == Failed && o.state == Reached(s, r).(error := o.state.error)
      && o.added == child + AllAdded(r)
    decreases |alts| - i
  {
    if i < |alts| {
      var o := Run(alts[i], s);
      AttemptsStep(alts, i, s);
      var err' := if firstTime || o.state.error.errorLocation > err.errorLocation then o.state.error else err;
      OneOfLoopStep(alts, i, s, firstTime, err, child);
      OneOfLoopAllFail(alts, i + 1, o.state, false, err', child + o.added);
      assert (child + o.added) + AllAdded(Attempts(alts, i + 1, o.state)) == child + (o.added + AllAdded(Attempts(alts, i + 1, o.state)));
    }
  }

  /** The errors the attempts reported, in order. */
  function Errors(r: seq<Outcome>): (errs: seq<InternalError>)
    ensures |errs| == |r| && forall k :: 0 <= k < |r| ==> errs[k] == r[k].state.error
  {
    if |r| == 0 then [] else [r[0].state.error] + Errors(r[1..])
  }

  /** OneOf's choice of error over a run of failures, from the error carried in. */
  function Pick(errs: seq<InternalError>, firstTime: bool, err: InternalError): InternalError
  {
    if |errs| == 0 then err
    else Pick(errs[1..], false, if firstTime || errs[0].errorLocation > err.errorLocation then errs[0] else err)
  }

  /** The error OneOf's loop reports after failures only is Pick over their errors. */
  lemma {:induction false} OneOfLoopPicks(alts: seq<Parser>, i: nat, s: State, firstTime: bool, err: InternalError, child: seq<Expected>)
    requires i <= |alts| && ValidState(s)
    requires i + |Attempts(alts, i, s)| == |alts|
    ensures OneOfLoop(alts, i, s, firstTime, err, child).state.error == Pick(Errors(Attempts(alts, i, s)), firstTime, err)
    decreases |alts| - i
  {
    if i < |alts| {
      var o := Run(alts[i], s);
      AttemptsStep(alts, i, s);
      var err' := if firstTime || o.state.error.errorLocation > err.errorLocation then o.state.error else err;
      OneOfLoopStep(alts, i, s, firstTime, err, child);
      OneOfLoopPicks(alts, i + 1, o.state, false, err', child + o.added);
      var r := Attempts(alts, i, s);
      assert Errors(r)[1..] == Errors(Attempts(alts, i + 1, o.state));
    }
  }

  /** No error lies further on than the one Pick returns; after the first failure, neither does the carried one. */
  lemma {:induction false} PickIsFurthest(errs: seq<InternalError>, firstTime: bool, err: InternalError)
    ensures forall j :: 0 <= j < |errs| ==> errs[j].errorLocation <= Pick(errs, firstTime, err).errorLocation
    ensures !firstTime || |errs| == 0 ==> err.errorLocation <= Pick(errs, firstTime, err).errorLocation
  {
    if |errs| > 0 {
      var err' := if firstTime || errs[0].errorLocation > err.errorLocation then errs[0] else err;
      PickIsFurthest(errs[1..], false, err');
      forall j | 0 < j < |errs| ensures errs[j].errorLocation <= Pick(errs, firstTime, err).errorLocation {
        assert errs[j] == errs[1..][j - 1];
      }
    }
  }

  /**
   * The error Pick returns is the carried one, or one of the errors that lies strictly further on
   * than every earlier one and than the carried one (when it competes). Once there is a failure on
   * the first iteration, the carried error never survives.
   */
  lemma {:induction false} PickIsEarliest(errs: seq<InternalError>, firstTime: bool, err: InternalError)
    ensures var e := Pick(errs, firstTime, err);
      || (e == err && (!firstTime || |errs| == 0))
      || exists k :: 0 <= k < |errs| && e == errs[k]
           && (forall j :: 0 <= j < k ==> errs[j].errorLocation < errs[k].errorLocation)
           && (!firstTime ==> err.errorLocation < errs[k].errorLocation)
  {
    if |errs| > 0 {
      var rest := errs[1..];
      var chosen := firstTime || errs[0].errorLocation > err.errorLocation;
      var err' := if chosen then errs[0] else err;
      PickIsEarliest(rest, false, err');
      var e := Pick(errs, firstTime, err);
      if e == err' {
        if chosen {
          assert e == errs[0];
        }
      } else {
        var k' :| 0 <= k' < |rest| && e == rest[k']
          && (forall j :: 0 <= j < k' ==> rest[j].errorLocation < rest[k'].errorLocation)
          && err'.errorLocation < rest[k'].errorLocation;
        var k := k' + 1;
        assert errs[k] == rest[k'];
        forall j | 0 <= j < k ensures errs[j].errorLocation < errs[k].errorLocation {
          if j > 0 {
            assert errs[j] == rest[j - 1];
          }
        }
      }
    }
  }

  /** `errs[k]` lies furthest on, and is the first error that far. */
  predicate EarliestFurthest(errs: seq<InternalError>, k: nat)
  {
    && k < |errs|
    && (forall j :: 0 <= j < |errs| ==> errs[j].errorLocation <= errs[k].errorLocation)
    && (forall j :: 0 <= j < k ==> errs[j].errorLocation < errs[k].errorLocation)
  }

  lemma RunOneOfIsLoop(alts: seq<Parser>, s: State)
    requires ValidState(s)
    ensures Run(OneOf(alts), s) == OneOfLoop(alts, 0, s, true, NoArgumentsError(s), [])
  {
    assert Run(OneOf(alts), s) == RunControl(OneOf(alts), s);
    assert RunControl(OneOf(alts), s) == RunOneOf(alts, s);
  }

  /**
   * OneOf when every alternative fails without consuming input: it fails at the start location,
   * forwards every alternative's expected entries in order, and reports the error that lies
   * furthest on, the earliest of equals; with no alternatives, "OneOf had no arguments".
   */
  lemma OneOfAllFail(alts: seq<Parser>, s: State)
    requires ValidState(s) && |Attempts(alts, 0, s)| == |alts|
    ensures var o := Run(OneOf(alts), s); var r := Attempts(alts, 0, s);
      && o.status == Failed && o.result == VUnit
      && o.state.location == s.location && o.state.bookmarks == s.bookmarks
      && o.added == AllAdded(r)
      && (|alts| == 0 ==> o.state.error == NoArgumentsError(s))
      && (|alts| > 0 ==> exists k: nat :: EarliestFurthest(Errors(r), k) && o.state.error == r[k].state.error)
  {
    var r := Attempts(alts, 0, s);
    var errs := Errors(r);
    RunOneOfIsLoop(alts, s);
    OneOfLoopAllFail(alts, 0, s, true, NoArgumentsError(s), []);
    OneOfLoopPicks(alts, 0, s, true, NoArgumentsError(s), []);
    var e := Pick(errs, true, NoArgumentsError(s));
    PickIsFurthest(errs, true, NoArgumentsError(s));
    PickIsEarliest(errs, true, NoArgumentsError(s));
    if |alts| > 0 {
      var k :| 0 <= k < |errs| && e == errs[k] && (forall j :: 0 <= j < k ==> errs[j].errorLocation < errs[k].errorLocation);
      assert EarliestFurthest(errs, k);
    }
  }

  /**
   * OneOf when some alternative ends the search: the alternatives before it failed without
   * consuming, and its outcome is OneOf's. A success or an exception forwards no expected
   * entries; a failure after consuming input forwards exactly that alternative's.
   */
  lemma OneOfDecides(alts: seq<Parser>, s: State)
    requires ValidState(s) && |Attempts(alts, 0, s)| < |alts|
    ensures var r := Attempts(alts, 0, s); var o := Run(alts[|r|], Reached(s, r));
      && Run(OneOf(alts), s) == Decided(o)
      && (o.status == Failed ==> o.state.location > s.location)
  {
    RunOneOfIsLoop(alts, s);
    OneOfLoopDecides(alts, 0, s, true, NoArgumentsError(s), []);
    AttemptsStop(alts, 0, s);
  }

  /** The alternative after the attempts either succeeded, threw, or failed after consuming input. */
  lemma {:induction false} AttemptsStop(alts: seq<Parser>, i: nat, s: State)
    requires i <= |alts| && ValidState(s) && i + |Attempts(alts, i, s)| < |alts|
    ensures var r := Attempts(alts, i, s); var o := Run(alts[i + |r|], Reached(s, r));
      ValidState(Reached(s, r)) && Reached(s, r).location == s.location
      && (o.status == Failed ==> o.state.location > s.location)
    decreases |alts| - i
  {
    var o := Run(alts[i], s);
    if o.status == Failed && o.state.location == s.location {
      AttemptsStep(alts, i, s);
      AttemptsStop(alts, i + 1, o.state);
    }
  }

  lemma {:induction false} AttemptsPrefix(xs: seq<Parser>, ys: seq<Parser>, i: nat, s: State)
    requires i <= |xs| && ValidState(s) && i + |Attempts(xs, i, s)| < |xs|
    ensures Attempts(xs + ys, i, s) == Attempts(xs, i, s)
    decreases |xs| - i
  {
    assert (xs + ys)[i] == xs[i];
    var o := Run(xs[i], s);
    if o.status == Failed && o.state.location == s.location {
      AttemptsPrefix(xs, ys, i + 1, o.state);
    }
  }

  /** Only a failure without consuming input lets OneOf go on to the next alternative. */
  predicate FailedInPlace(s: State, o: Outcome)
  {
    o.status == Failed && o.state.location == s.location
  }

  /**
   * Once OneOf over `xs` has succeeded, thrown or failed after consuming input, alternatives
   * appended after `xs` are never run: the outcome is the same.
   */
  lemma OneOfStopsEarly(xs: seq<Parser>, ys: seq<Parser>, s: State)
    requires ValidState(s) && !FailedInPlace(s, Run(OneOf(xs), s))
    ensures Run(OneOf(xs + ys), s) == Run(OneOf(xs), s)
  {
    RunOneOfIsLoop(xs, s);
    RunOneOfIsLoop(xs + ys, s);
    var r := Attempts(xs, 0, s);
    if |r| == |xs| {
      OneOfLoopAllFail(xs, 0, s, true, NoArgumentsError(s), []);
      assert false;
    }
    AttemptsPrefix(xs, ys, 0, s);
    OneOfLoopDecides(xs, 0, s, true, NoArgumentsError(s), []);
    OneOfLoopDecides(xs + ys, 0, s, true, NoArgumentsError(s), []);
    assert (xs + ys)[|r|] == xs[|r|];
  }

  // ---------------------------------------------------------------------------------------
  // Or and Optional

  /** `p.Or(q)` throws on a null `q` and is otherwise the OneOf over both, spliced. */
  lemma OrIsOneOf(p: Parser, q: Option<Parser>)
    ensures q.None? ==> Or(p, q) == Failure(ArgumentNull("parser"))
    ensures q.Some? ==> Or(p, q) == Success(Either(p, q.value))
    ensures q.Some? && !p.OneOf? && !q.value.OneOf? ==> Or(p, q) == Success(OneOf([p, q.value]))
  {
    if q.Some? {
      var ps := [Some(p), q];
      assert Unwrapped(ps) == [p, q.value];
      assert [p, q.value][..1] == [p];
      assert [p][..0] == [];
      assert Flatten([p]) == Spliced(p);
      assert Flatten([p, q.value]) == Flatten([p]) + Spliced(q.value);
    }
  }

  /**
   * When `p` succeeds, throws, or fails after consuming input, `p.Or(q)` never runs `q`: its
   * outcome is `p`'s, with no expected entries forwarded on success.
   */
  lemma OrStopsAtFirst(p: Parser, q: Parser, s: State)
    requires ValidState(s) && !FailedInPlace(s, Run(p, s))
    ensures Run(Either(p, q), s) == Decided(Run(p, s))
  {
    if p.OneOf? {
      OneOfStopsEarly(p.alts, Spliced(q), s);
      RunOneOfIsLoop(p.alts, s);
      var r := Attempts(p.alts, 0, s);
      if |r| == |p.alts| {
        OneOfLoopAllFail(p.alts, 0, s, true, NoArgumentsError(s), []);
        assert false;
      }
      OneOfLoopDecides(p.alts, 0, s, true, NoArgumentsError(s), []);
    } else {
      var alts := [p] + Spliced(q);
      RunOneOfIsLoop(alts, s);
      assert alts[0] == p;
    }
  }

  /**
   * When neither is itself a OneOf and `p` fails without consuming input, `p.Or(q)` runs `q`
   * where `p` stopped. If `q` also fails without consuming, the whole fails there with the error
   * lying further on (`p`'s on a tie) and both parsers' expected entries in order; otherwise
   * the outcome is `q`'s.
   */
  lemma OrFallsThrough(p: Parser, q: Parser, s: State)
    requires ValidState(s) && !p.OneOf? && !q.OneOf? && FailedInPlace(s, Run(p, s))
    ensures var o1 := Run(p, s); var o2 := Run(q, o1.state); var o := Run(Either(p, q), s);
      && (FailedInPlace(s, o2) ==>
            && o.status == Failed && o.added == o1.added + o2.added
            && o.state == o2.state.(error := if o2.state.error.errorLocation > o1.state.error.errorLocation then o2.state.error else o1.state.error))
      && (!FailedInPlace(s, o2) ==> o == Decided(o2))
  {
    var alts := [p, q];
    assert Either(p, q) == OneOf(alts);
    RunOneOfIsLoop(alts, s);
    var o1 := Run(p, s);
    OneOfLoopStep(alts, 0, s, true, NoArgumentsError(s), []);
    assert [] + o1.added == o1.added;
    assert Run(OneOf(alts), s) == OneOfLoop(alts, 1, o1.state, false, o1.state.error, o1.added);
    OneOfLoopLast(alts, o1.state, o1.state.error, o1.added);
  }

  /** The last iteration of OneOf's loop, after the first. */
  lemma OneOfLoopLast(alts: seq<Parser>, s: State, err: InternalError, child: seq<Expected>)
    requires |alts| > 0 && ValidState(s)
    ensures var o := Run(alts[|alts| - 1], s); var l := OneOfLoop(alts, |alts| - 1, s, false, err, child);
      && (FailedInPlace(s, o) ==>
            && l.status == Failed && l.added == child + o.added
            && l.state == o.state.(error := if o.state.error.errorLocation > err.errorLocation then o.state.error else err))
      && (!FailedInPlace(s, o) ==> l == Decided(o))
  {
  }

  lemma RunMap1Is(f: Value -> Value, q: Parser, s: State)
    requires ValidState(s)
    ensures Run(Map1(f, q), s) == RunMap1(f, q, s)
  {
    assert Run(Map1(f, q), s) == RunBasic(Map1(f, q), s);
  }

  /**
   * `p.Optional()`: `Just` of the result when `p` succeeds; `Nothing`, where `p` stopped, when
   * `p` fails without consuming input; and `p`'s own failure when it fails after consuming.
   */
  lemma OptionalLaw(p: Parser, s: State)
    requires ValidState(s)
    ensures var i := Run(p, s); var o := Run(Optional(p), s);
      && (i.status == Succeeded ==> o.status == Succeeded && o.result == VJust(i.result) && o.state == i.state && o.added == [])
      && (FailedInPlace(s, i) ==> o.status == Succeeded && o.result == VNothing && o.state == i.state && o.added == [])
      && (i.status == Failed && i.state.location > s.location ==> o == i)
      && (i.status.Threw? ==> o.status == i.status)
  {
    var m := Map1(Just, p);
    RunMap1Is(Just, p, s);
    if FailedInPlace(s, Run(m, s)) {
      OrFallsThrough(m, Return(VNothing), s);
      assert Run(Return(VNothing), Run(m, s).state) == RunReturn(VNothing, Run(m, s).state) by {
        assert Run(Return(VNothing), Run(m, s).state) == RunPrimitive(Return(VNothing), Run(m, s).state);
      }
    } else {
      OrStopsAtFirst(m, Return(VNothing), s);
    }
  }

  // ---------------------------------------------------------------------------------------
  // Building a OneOf

  /** Create's list for two argument lists in a row is the two lists in a row. */
  lemma {:induction false} FlattenAppend(xs: seq<Parser>, ys: seq<Parser>)
    ensures Flatten(xs + ys) == Flatten(xs) + Flatten(ys)
    decreases |ys|
  {
    if |ys| == 0 {
      assert xs + ys == xs;
    } else {
      var zs := xs + ys;
      var init := ys[..|ys| - 1];
      var last := Spliced(ys[|ys| - 1]);
      assert zs[..|zs| - 1] == xs + init;
      assert zs[|zs| - 1] == ys[|ys| - 1];
      FlattenAppend(xs, init);
      calc {
        Flatten(zs);
        Flatten(xs + init) + last;
        (Flatten(xs) + Flatten(init)) + last;
        Flatten(xs) + (Flatten(init) + last);
        Flatten(xs) + Flatten(ys);
      }
    }
  }

  /** Create keeps a non-OneOf argument as it is and splices a OneOf's alternatives in its place. */
  lemma FlattenOne(p: Parser)
    ensures Flatten([p]) == (if p.OneOf? then p.alts else [p])
  {
    assert [p][..0] == [];
  }

  /** No alternative is itself a OneOf. */
  predicate NoNestedOneOf(alts: seq<Parser>)
  {
    forall i :: 0 <= i < |alts| ==> !alts[i].OneOf?
  }

  /** A parser as the factories build it: a OneOf never holds another OneOf. */
  predicate FlatOneOf(p: Parser)
  {
    p.OneOf? ==> NoNestedOneOf(p.alts)
  }

  lemma {:induction false} FlattenIsFlat(ps: seq<Parser>)
    requires forall i :: 0 <= i < |ps| ==> FlatOneOf(ps[i])
    ensures NoNestedOneOf(Flatten(ps))
    decreases |ps|
  {
    if |ps| > 0 {
      FlattenIsFlat(ps[..|ps| - 1]);
    }
  }

  /**
   * OneOf over arguments built by the factories is flat; so a chain of `Or`s produces one OneOf
   * whose alternatives are the operands in order.
   */
  lemma CreatedIsFlat(ps: seq<Option<Parser>>)
    requires forall i :: 0 <= i < |ps| && ps[i].Some? ==> FlatOneOf(ps[i].value)
    ensures Created(ps).Success? ==> FlatOneOf(Created(ps).value)
  {
    if Created(ps).Success? {
      FlattenIsFlat(Unwrapped(ps));
    }
  }

  lemma OrChain(a: Parser, b: Parser, c: Parser)
    requires !a.OneOf? && !b.OneOf? && !c.OneOf?
    ensures Or(a, Some(b)).Success? && Or(Or(a, Some(b)).value, Some(c)) == Success(OneOf([a, b, c]))
  {
    OrIsOneOf(a, Some(b));
    OrIsOneOf(Or(a, Some(b)).value, Some(c));
    assert [a, b] + [c] == [a, b, c];
  }

  // ---------------------------------------------------------------------------------------
  // Labels, separated lists and repetition

  /**
   * `p.Labelled(name)`: the inner parser's status, result and state; on failure the caller
   * receives exactly the one label, on success nothing.
   */
  lemma LabelledLaw(p: Parser, name: string, s: State)
    requires ValidState(s)
    ensures Labelled(p, None) == Failure(ArgumentNull("label"))
    ensures var l := Labelled(p, Some(name)); var i := Run(p, s);
      && l.Success? && l.value == WithExpected(p, [LabelExpected(name)])
      && var o := Run(l.value, s);
      && o.status == i.status && o.result == i.result && o.state == i.state
      && o.added == (if i.status == Failed then [LabelExpected(name)] else [])
  {
    var q := WithExpected(p, [LabelExpected(name)]);
    assert Run(q, s) == RunControl(q, s);
  }

  /** `item.Separated(separator)` is the empty list, where `item` stopped, when the first item fails without consuming. */
  lemma SeparatedEmpty(item: Parser, separator: Parser, s: State)
    requires ValidState(s) && FailedInPlace(s, Run(item, s))
    ensures var l := Separated(item, Some(separator));
      && l.Success?
      && Run(l.value, s) == Outcome(Succeeded, VList([]), Run(item, s).state, [])
  {
    var list := SeparatedAtLeastOnce(item, Then(separator, item));
    assert Run(list, s) == RunRepetition(list, s);
    OrFallsThrough(list, ReturnEmpty, s);
    var after := Run(list, s).state;
    assert Run(ReturnEmpty, after) == RunPrimitive(ReturnEmpty, after);
  }

  /** Otherwise `item.Separated(separator)` behaves as SeparatedAtLeastOnce. */
  lemma SeparatedNonEmpty(item: Parser, separator: Parser, s: State)
    requires ValidState(s) && !FailedInPlace(s, Run(item, s))
    ensures var list := SeparatedAtLeastOnce(item, Then(separator, item)); var l := Separated(item, Some(separator));
      && l.Success?
      && Run(l.value, s) == Decided(Run(list, s))
  {
    var list := SeparatedAtLeastOnce(item, Then(separator, item));
    assert Run(list, s) == RunRepetition(list, s) == RunSeparatedAtLeastOnce(item, Then(separator, item), s);
    var first := Run(item, s);
    if first.status == Succeeded {
      RestLoopFailsConsuming(Then(separator, item), first.state, [first.result]);
      assert Run(list, s).state == RestLoop(Then(separator, item), first.state, [first.result]).state;
    }
    OrStopsAtFirst(list, ReturnEmpty, s);
  }

  /**
   * The repetition loop throws "Many() used with a parser which consumed no input" when a step
   * succeeds without advancing, and ends with the items so far when a step fails without consuming.
   */
  lemma RestLoopStops(step: Parser, s: State, ts: seq<Value>)
    requires ValidState(s)
    ensures var o := Run(step, s);
      && (o.status == Succeeded && o.state.location <= s.location ==>
            RestLoop(step, s, ts).status == Threw(InvalidOperation(NoProgressMessage)))
      && (FailedInPlace(s, o) ==> RestLoop(step, s, ts) == Outcome(Succeeded, VList(ts), o.state, []))
      && (o.status == Failed && o.state.location > s.location ==> RestLoop(step, s, ts) == o)
  {
  }

  /** A step that succeeds and advances is collected, and the loop goes on from where it stopped. */
  lemma RestLoopAdvances(step: Parser, s: State, ts: seq<Value>)
    requires ValidState(s)
    requires Run(step, s).status == Succeeded && Run(step, s).state.location > s.location
    ensures RestLoop(step, s, ts) == RestLoop(step, Run(step, s).state, ts + [Run(step, s).result])
  {
  }

  /** When the repetition loop fails, it has consumed input. */
  lemma {:induction false} RestLoopFailsConsuming(step: Parser, s: State, ts: seq<Value>)
    requires ValidState(s)
    ensures RestLoop(step, s, ts).status == Failed ==> RestLoop(step, s, ts).state.location > s.location
    decreases |s.input| - s.location
  {
    var o := Run(step, s);
    if o.status == Succeeded && o.state.location > s.location {
      RestLoopFailsConsuming(step, o.state, ts + [o.result]);
    }
  }

  /** The characters of a list of values, as RepeatStringParser collects them. */
  function Chars(vs: seq<Value>): (cs: seq<char>)
    ensures |cs| == |vs| && forall k :: 0 <= k < |vs| ==> cs[k] == AsChar(vs[k])
  {
    if |vs| == 0 then [] else Chars(vs[..|vs| - 1]) + [AsChar(vs[|vs| - 1])]
  }

  /**
   * RepeatString's loop and Sequence's loop over `count` copies run the parser the same
   * number of times from the same states: same status, final state and expected entries, and
   * on success the string is the characters of Sequence's results.
   */
  lemma {:induction false} RepeatLoopIsSequence(q: Parser, count: nat, i: nat, s: State, results: seq<Value>, added: seq<Expected>)
    requires i <= count && ValidState(s)
    ensures var r := RepeatLoop(q, count, i, s, Chars(results), added);
      var l := SequenceLoop(Copies(q, count), i, s, results, added);
      && r.status == l.status && r.state == l.state && r.added == l.added
      && (r.status == Succeeded ==> r.result == VStr(Chars(l.result.items)))
    decreases count - i
  {
    if i < count {
      var o := Run(q, s);
      assert Copies(q, count)[i] == q;
      if o.status == Succeeded {
        var results' := results + [o.result];
        assert results'[..|results'| - 1] == results;
        RepeatLoopIsSequence(q, count, i + 1, o.state, results', added + o.added);
      }
    }
  }

  /**
   * `RepeatString(count)` and `Repeat(count)` reject the same counts, and otherwise run the
   * parser exactly `count` times; RepeatString returns the characters read, in order. With
   * count 0 both succeed without moving.
   */
  lemma RepeatStringIsRepeat(q: Parser, count: int, s: State)
    requires ValidState(s)
    ensures RepeatStringOf(None, count) == Failure(ArgumentNull("parser"))
    ensures count < 0 ==> RepeatStringOf(Some(q), count) == Repeat(q, count) == Failure(ArgumentOutOfRange("count", CountMessage))
    ensures count >= 0 ==>
      && RepeatStringOf(Some(q), count).Success? && Repeat(q, count).Success?
      && var r := Run(RepeatStringOf(Some(q), count).value, s); var l := Run(Repeat(q, count).value, s);
      && r.status == l.status && r.state == l.state && r.added == l.added
      && (r.status == Succeeded ==> l.result.VList? && r.result == VStr(Chars(l.result.items)) && |l.result.items| == count)
    ensures count == 0 ==> Run(RepeatString(q, 0), s) == Outcome(Succeeded, VStr([]), s, [])
  {
    if count >= 0 {
      var rs := RepeatString(q, count);
      var sq := Sequence(Copies(q, count));
      assert Run(rs, s) == RunRepetition(rs, s);
      assert Run(sq, s) == RunBasic(sq, s);
      RepeatLoopIsSequence(q, count, 0, s, [], []);
    }
    assert Run(RepeatString(q, 0), s) == RunRepetition(RepeatString(q, 0), s);
  }

  /**
   * Map over two parsers: the first one's failure or exception is the outcome; otherwise the
   * second runs where the first stopped, both parsers' expected entries reach the caller, and on
   * success the result is `f2` of the two results.
   */
  lemma Map2Law(f2: (Value, Value) -> Value, q1: Parser, q2: Parser, s: State)
    requires ValidState(s)
    ensures var o := Run(Map2(f2, q1, q2), s); var o1 := Run(q1, s);
      && (o1.status != Succeeded ==> o == o1)
      && (o1.status == Succeeded ==>
            var o2 := Run(q2, o1.state);
            && o.status == o2.status && o.state == o2.state && o.added == o1.added + o2.added
            && (o2.status == Succeeded ==> o.result == f2(o1.result, o2.result)))
  {
    assert Run(Map2(f2, q1, q2), s) == RunBasic(Map2(f2, q1, q2), s) == RunMap2(f2, q1, q2, s);
    var o1 := Run(q1, s);
    if o1.status == Succeeded {
      var o2 := Map2Second(f2, o1.result, q2, o1.state);
      assert RunMap2(f2, q1, q2, s) == o2.(added := o1.added + o2.added);
    }
  }

  /** Map3: all three parsers in a row; on success the result is `f3` of their three results. */
  lemma Map3Law(f3: (Value, Value, Value) -> Value, p: Parser, q: Parser, r: Parser, s: State)
    requires ValidState(s)
    ensures var o := Run(Map3(f3, p, q, r), s); var o1 := Run(p, s);
      && (o1.status != Succeeded ==> o == o1)
      && (o1.status == Succeeded ==>
            var o2 := Run(q, o1.state);
            && (o2.status != Succeeded ==> o.status == o2.status && o.state == o2.state && o.added == o1.added + o2.added)
            && (o2.status == Succeeded ==>
                  var o3 := Run(r, o2.state);
                  && o.status == o3.status && o.state == o3.state && o.added == o1.added + o2.added + o3.added
                  && (o3.status == Succeeded ==> o.result == f3(o1.result, o2.result, o3.result))))
  {
    var pairUp := (x, y) => VPair(x, y);
    var combine := (xy: Value, z: Value) => if xy.VPair? then f3(xy.fst, xy.snd, z) else f3(VUnit, VUnit, z);
    var pair := Map2(pairUp, p, q);
    assert Map3(f3, p, q, r) == Map2(combine, pair, r);
    Map2Law(pairUp, p, q, s);
    Map2Law(combine, pair, r, s);
  }

  // ---------------------------------------------------------------------------------------
  // Case-insensitive literals

  /** The search returns the first mismatch. */
  lemma {:induction false} MismatchFromFirst(span: seq<char>, value: seq<char>, k: nat, i: nat)
    requires |span| <= |value| && k <= i < |span|
    requires !SameIgnoringCase(span[i], value[i])
    requires forall j :: k <= j < i ==> SameIgnoringCase(span[j], value[j])
    ensures MismatchFrom(span, value, k) == i
    decreases i - k
  {
    if k < i {
      MismatchFromFirst(span, value, k + 1, i);
    }
  }

  /**
   * CIString at the first position `i` where the input differs from the literal: it consumes
   * the `i` matching characters and fails there, naming the differing character.
   */
  lemma CIStringStopsAtMismatch(literal: string, s: State, i: nat)
    requires ValidState(s) && i < |literal| && s.location + i < |s.input|
    requires !SameIgnoringCase(s.input[s.location + i], literal[i])
    requires forall j :: 0 <= j < i ==> SameIgnoringCase(s.input[s.location + j], literal[j])
    ensures var o := Run(CIString(literal), s);
      && o.status == Failed && o.state.location == s.location + i
      && o.state.error == InternalError(Some(s.input[s.location + i]), false, s.location + i, None)
      && o.added == [TokensExpected(literal)]
  {
    assert Run(CIString(literal), s) == RunRepetition(CIString(literal), s);
    var span := Span(s, |literal|);
    assert span[i] == s.input[s.location + i];
    assert forall j :: 0 <= j < i ==> span[j] == s.input[s.location + j];
    MismatchFromFirst(span, literal, 0, i);
  }

  /**
   * CIString when the input ends inside a matching prefix: it consumes the rest of the input and
   * fails at its end, with the end-of-input flag set.
   */
  lemma CIStringRunsOut(literal: string, s: State)
    requires ValidState(s) && |s.input| < s.location + |literal|
    requires forall j :: s.location <= j < |s.input| ==> SameIgnoringCase(s.input[j], literal[j - s.location])
    ensures var o := Run(CIString(literal), s);
      && o.status == Failed && o.state.location == |s.input|
      && o.state.error == InternalError(None, true, |s.input|, None)
      && o.added == [TokensExpected(literal)]
  {
    assert Run(CIString(literal), s) == RunRepetition(CIString(literal), s);
    var span := Span(s, |literal|);
    assert forall j :: 0 <= j < |span| ==> SameIgnoringCase(span[j], literal[j]) by {
      forall j | 0 <= j < |span| ensures SameIgnoringCase(span[j], literal[j]) {
        assert span[j] == s.input[s.location + j];
      }
    }
  }

  // ---------------------------------------------------------------------------------------
  // Argument checks and defaults

  /** Every factory throws ArgumentNullException, naming the parameter, for a null argument. */
  lemma NullArgumentsThrow(p: Parser, ps: seq<Option<Parser>>)
    ensures OneOfParsers(None) == Failure(ArgumentNull("parsers"))
    ensures (exists i :: 0 <= i < |ps| && ps[i].None?) ==> Created(ps) == Failure(ArgumentNull("parsers"))
    ensures TryOf(None) == LookaheadOf(None) == NotOf(None) == Failure(ArgumentNull("parser"))
    ensures AssertWith(p, None, None) == AssertMessage(p, None, None) == AssertDefault(p, None) == Failure(ArgumentNull("predicate"))
    ensures forall a: Value -> bool :: AssertWith(p, Some(a), None) == AssertMessage(p, Some(a), None) == Failure(ArgumentNull("message"))
    ensures RecoverWithOf(p, None, []) == Failure(ArgumentNull("errorHandler"))
    ensures FailOf(None) == Failure(ArgumentNull("message"))
    ensures MapUserStateOf(p, None) == Failure(ArgumentNull("func"))
    ensures CIStringOf(None) == Failure(ArgumentNull("str"))
    ensures var e := Failure(ArgumentNull("separator"));
      && SeparatedAtLeastOnceOf(p, None) == e && Separated(p, None) == e
      && SeparatedAndTerminated(p, None) == e && SeparatedAndTerminatedAtLeastOnce(p, None) == e
      && SeparatedAndOptionallyTerminated(p, None) == e && SeparatedAndOptionallyTerminatedAtLeastOnceOf(p, None) == e
  {
  }

  /**
   * `Assert(predicate)` without a message: when the predicate rejects the inner result, the
   * error message is "Assertion failed", and the "result satisfying assertion" entry is added.
   */
  lemma AssertDefaultMessage(p: Parser, assertion: Value -> bool, s: State)
    requires ValidState(s)
    ensures var a := AssertDefault(p, Some(assertion)); var i := Run(p, s);
      && a.Success?
      && (i.status == Succeeded && !assertion(i.result) ==>
            var o := Run(a.value, s);
            && o.status == Failed && o.state.location == i.state.location
            && o.state.error == InternalError(None, false, i.state.location, Some(DefaultAssertMessage))
            && o.added == i.added + [AssertionExpected])
  {
    var a := AssertDefault(p, Some(assertion));
    assert Run(a.value, s) == RunControl(a.value, s);
  }
}
