/**
 * The combinators' TryParse methods, run against the mutable ParseState.
 *
 * Each method takes the caller's expected list and returns it with this parser's entries
 * appended. This is the C# `ref PooledList<Expected>` argument. Each method is proved to do
 * what `Parsers.Run` says: same status and result, same new state, and the caller's list
 * extended by exactly the outcome's `added` entries.
 */
module Machine {
  import opened Wrappers
  import opened Values
  import opened ParseStates
  import opened Text
  import opened Parsers

  /** Appending two lists of expected entries one after the other appends their concatenation. */
  lemma AppendTwice(xs: seq<Expected>, ys: seq<Expected>, zs: seq<Expected>)
    ensures xs + ys + zs == xs + (ys + zs)
  {
  }

  /** The method's observable effect is the outcome `o`. */
  predicate Matches(o: Outcome, status: Status, result: Value, after: State, expecteds: seq<Expected>, expecteds': seq<Expected>)
  {
    status == o.status && result == o.result && after == o.state && expecteds' == expecteds + o.added
  }

  method TryParse(p: Parser, st: ParseState, expecteds: seq<Expected>) returns (status: Status, result: Value, expecteds': seq<Expected>)
    requires st.Valid()
    modifies st
    ensures st.Valid()
    ensures Matches(Run(p, old(st.Snapshot())), status, result, st.Snapshot(), expecteds, expecteds')
    decreases p, 3, 0
  {
    if IsBasic(p) {
      status, result, expecteds' := TryParseBasic(p, st, expecteds);
    } else if IsControl(p) {
      status, result, expecteds' := TryParseControl(p, st, expecteds);
    } else if IsPrimitive(p) {
      status, result, expecteds' := TryParsePrimitive(p, st, expecteds);
    } else {
      status, result, expecteds' := TryParseRepetition(p, st, expecteds);
    }
  }

  method TryParseBasic(p: Parser, st: ParseState, expecteds: seq<Expected>) returns (status: Status, result: Value, expecteds': seq<Expected>)
    requires IsBasic(p) && st.Valid()
    modifies st
    ensures st.Valid()
    ensures Matches(RunBasic(p, old(st.Snapshot())), status, result, st.Snapshot(), expecteds, expecteds')
    decreases p, 2, 0
  {
    match p
    case Token(accept, expected) => status, result, expecteds' := TryParseToken(accept, expected, st, expecteds);
    case Map1(f, q) => status, result, expecteds' := TryParseMap1(f, q, st, expecteds);
    case Map2(f2, q1, q2) => status, result, expecteds' := TryParseMap2(f2, q1, q2, st, expecteds);
    case Sequence(ps) => status, result, expecteds' := TryParseSequence(ps, st, expecteds);
    case AtLeastOnce(q) => status, result, expecteds' := TryParseAtLeastOnce(q, st, expecteds);
    case Many(q) => status, result, expecteds' := Rest(q, st, expecteds, []);
  }

  method TryParseControl(p: Parser, st: ParseState, expecteds: seq<Expected>) returns (status: Status, result: Value, expecteds': seq<Expected>)
    requires IsControl(p) && st.Valid()
    modifies st
    ensures st.Valid()
    ensures Matches(RunControl(p, old(st.Snapshot())), status, result, st.Snapshot(), expecteds, expecteds')
    decreases p, 2, 0
  {
    match p
    case OneOf(alts) => status, result, expecteds' := TryParseOneOf(alts, st, expecteds);
    case Try(q) => status, result, expecteds' := TryParseTry(q, st, expecteds);
    case Lookahead(q) => status, result, expecteds' := TryParseLookahead(q, st, expecteds);
    case Not(q) => status, result, expecteds' := TryParseNot(q, st, expecteds);
    case Assert(q, assertion, messageOf) => status, result, expecteds' := TryParseAssert(q, assertion, messageOf, st, expecteds);
    case WithExpected(q, expected) => status, result, expecteds' := TryParseWithExpected(q, expected, st, expecteds);
    case RecoverWith(q, handler, recoveries) => status, result, expecteds' := TryParseRecoverWith(q, handler, recoveries, st, expecteds);
  }

  method TryParsePrimitive(p: Parser, st: ParseState, expecteds: seq<Expected>) returns (status: Status, result: Value, expecteds': seq<Expected>)
    requires IsPrimitive(p) && st.Valid()
    modifies st
    ensures st.Valid()
    ensures Matches(RunPrimitive(p, old(st.Snapshot())), status, result, st.Snapshot(), expecteds, expecteds')
    decreases p, 2, 0
  {
    match p
    case Return(v) => status, result, expecteds' := Succeeded, v, expecteds;
    case Fail(message) => status, result, expecteds' := TryParseFail(message, st, expecteds);
    case End => status, result, expecteds' := TryParseEnd(st, expecteds);
    case CurrentOffset => status, result, expecteds' := Succeeded, VInt(st.location), expecteds;
    case UserState => status, result, expecteds' := Succeeded, st.userState, expecteds;
    case WithUserState(q) => status, result, expecteds' := TryParseWithUserState(q, st, expecteds);
    case MapUserState(q, update) => status, result, expecteds' := TryParseMapUserState(q, update, st, expecteds);
  }

  method TryParseRepetition(p: Parser, st: ParseState, expecteds: seq<Expected>) returns (status: Status, result: Value, expecteds': seq<Expected>)
    requires !IsBasic(p) && !IsControl(p) && !IsPrimitive(p) && st.Valid()
    modifies st
    ensures st.Valid()
    ensures Matches(RunRepetition(p, old(st.Snapshot())), status, result, st.Snapshot(), expecteds, expecteds')
    decreases p, 2, 0
  {
    match p
    case SeparatedAtLeastOnce(item, remainder) => status, result, expecteds' := TryParseSeparatedAtLeastOnce(item, remainder, st, expecteds);
    case SeparatedAndOptionallyTerminatedAtLeastOnce(item, separator) =>
      status, result, expecteds' := TryParseSeparatedAndOptionallyTerminated(item, separator, st, expecteds);
    case RepeatString(q, count) => status, result, expecteds' := TryParseRepeatString(q, count, st, expecteds);
    case CIString(literal) => status, result, expecteds' := TryParseCIString(literal, st, expecteds);
    case SkipWhitespaces => status, result, expecteds' := TryParseSkipWhitespaces(st, expecteds);
  }

  // ---------------------------------------------------------------------------------------
  // Combinators outside the modelled files

  method TryParseToken(accept: char -> bool, expected: seq<Expected>, st: ParseState, expecteds: seq<Expected>)
    returns (status: Status, result: Value, expecteds': seq<Expected>)
    requires st.Valid()
    modifies st
    ensures st.Valid()
    ensures Matches(RunToken(accept, expected, old(st.Snapshot())), status, result, st.Snapshot(), expecteds, expecteds')
  {
    if !st.HasCurrent() {
      st.SetError(None, true, st.location, None);
      return Failed, VUnit, expecteds + expected;
    }
    var c := st.Current();
    if !accept(c) {
      st.SetError(Some(c), false, st.location, None);
      return Failed, VUnit, expecteds + expected;
    }
    st.Advance(1);
    return Succeeded, VChar(c), expecteds;
  }

  method TryParseMap1(f: Value -> Value, q: Parser, st: ParseState, expecteds: seq<Expected>)
    returns (status: Status, result: Value, expecteds': seq<Expected>)
    requires st.Valid()
    modifies st
    ensures st.Valid()
    ensures Matches(RunMap1(f, q, old(st.Snapshot())), status, result, st.Snapshot(), expecteds, expecteds')
    decreases Map1(f, q), 1, 0
  {
    status, result, expecteds' := TryParse(q, st, expecteds);
    if status == Succeeded {
      result := f(result);
    }
  }

  method TryParseMap2(f2: (Value, Value) -> Value, q1: Parser, q2: Parser, st: ParseState, expecteds: seq<Expected>)
    returns (status: Status, result: Value, expecteds': seq<Expected>)
    requires st.Valid()
    modifies st
    ensures st.Valid()
    ensures Matches(RunMap2(f2, q1, q2, old(st.Snapshot())), status, result, st.Snapshot(), expecteds, expecteds')
    decreases Map2(f2, q1, q2), 1, 0
  {
    ghost var s0 := st.Snapshot();
    var r1;
    status, r1, expecteds' := TryParse(q1, st, expecteds);
    ghost var o1 := Run(q1, s0);
    if status != Succeeded {
      return status, r1, expecteds';
    }
    ghost var s1 := st.Snapshot();
    status, result, expecteds' := TryParseMap2Second(f2, r1, q2, st, expecteds');
    AppendTwice(expecteds, o1.added, Map2Second(f2, r1, q2, s1).added);
  }

  method TryParseMap2Second(f2: (Value, Value) -> Value, x: Value, q2: Parser, st: ParseState, expecteds: seq<Expected>)
    returns (status: Status, result: Value, expecteds': seq<Expected>)
    requires st.Valid()
    modifies st
    ensures st.Valid()
    ensures Matches(Map2Second(f2, x, q2, old(st.Snapshot())), status, result, st.Snapshot(), expecteds, expecteds')
    decreases q2, 3, 1
  {
    status, result, expecteds' := TryParse(q2, st, expecteds);
    if status == Succeeded {
      result := f2(x, result);
    }
  }

  method TryParseSequence(ps: seq<Parser>, st: ParseState, expecteds: seq<Expected>)
    returns (status: Status, result: Value, expecteds': seq<Expected>)
    requires st.Valid()
    modifies st
    ensures st.Valid()
    ensures Matches(SequenceLoop(ps, 0, old(st.Snapshot()), [], []), status, result, st.Snapshot(), expecteds, expecteds')
    decreases Sequence(ps), 1, |ps| + 1
  {
    ghost var s0 := st.Snapshot();
    var results: seq<Value> := [];
    ghost var added: seq<Expected> := [];
    expecteds' := expecteds;
    var i := 0;
    while i < |ps|
      invariant 0 <= i <= |ps| && st.Valid() && st.input == s0.input
      invariant expecteds' == expecteds + added
      invariant SequenceLoop(ps, i, st.Snapshot(), results, added) == SequenceLoop(ps, 0, s0, [], [])
    {
      ghost var before := st.Snapshot();
      var r;
      status, r, expecteds' := TryParse(ps[i], st, expecteds');
      ghost var o := Run(ps[i], before);
      if status != Succeeded {
        return status, r, expecteds';
      }
      results := results + [r];
      added := added + o.added;
      i := i + 1;
    }
    return Succeeded, VList(results), expecteds';
  }

  method TryParseAtLeastOnce(q: Parser, st: ParseState, expecteds: seq<Expected>)
    returns (status: Status, result: Value, expecteds': seq<Expected>)
    requires st.Valid()
    modifies st
    ensures st.Valid()
    ensures Matches(RunAtLeastOnce(q, old(st.Snapshot())), status, result, st.Snapshot(), expecteds, expecteds')
    decreases AtLeastOnce(q), 1, 0
  {
    ghost var s0 := st.Snapshot();
    var result1;
    status, result1, expecteds' := TryParse(q, st, expecteds);
    ghost var first := Run(q, s0);
    if status != Succeeded {
      return status, result1, expecteds';
    }
    status, result, expecteds' := Rest(q, st, expecteds', [result1]);
    AppendTwice(expecteds, first.added, RestLoop(q, first.state, [first.result]).added);
  }

  /**
   * SeparatedAtLeastOnceParser.Rest: repeat `step` while it succeeds, throwing when a
   * successful step did not advance Location.
   */
  method Rest(step: Parser, st: ParseState, expecteds: seq<Expected>, ts: seq<Value>)
    returns (status: Status, result: Value, expecteds': seq<Expected>)
    requires st.Valid()
    modifies st
    ensures st.Valid()
    ensures Matches(RestLoop(step, old(st.Snapshot()), ts), status, result, st.Snapshot(), expecteds, expecteds')
    decreases step, 4, 0
  {
    ghost var s0 := st.Snapshot();
    var lastStartingLoc := st.location;
    var items := ts;
    while true
      invariant st.Valid() && st.input == s0.input && lastStartingLoc == st.location
      invariant RestLoop(step, st.Snapshot(), items) == RestLoop(step, s0, ts)
      decreases |st.input| - st.location
    {
      var success, r, childExpecteds := TryParse(step, st, []);
      if success.Threw? {
        return success, r, expecteds;
      }
      if success != Succeeded {
        var lastParserConsumedInput := st.location > lastStartingLoc;
        if lastParserConsumedInput {
          return Failed, VUnit, expecteds + childExpecteds;
        }
        return Succeeded, VList(items), expecteds;
      }
      var endingLoc := st.location;
      if endingLoc <= lastStartingLoc {
        return Threw(InvalidOperation(NoProgressMessage)), VUnit, expecteds;
      }
      items := items + [r];
      lastStartingLoc := endingLoc;
    }
  }

  // ---------------------------------------------------------------------------------------
  // OneOf

  method TryParseOneOf(alts: seq<Parser>, st: ParseState, expecteds: seq<Expected>)
    returns (status: Status, result: Value, expecteds': seq<Expected>)
    requires st.Valid()
    modifies st
    ensures st.Valid()
    ensures Matches(RunOneOf(alts, old(st.Snapshot())), status, result, st.Snapshot(), expecteds, expecteds')
    decreases OneOf(alts), 1, |alts| + 1
  {
    ghost var s0 := st.Snapshot();
    var firstTime := true;
    var err := InternalError(None, false, st.location, Some(NoArgumentsMessage));
    var childExpecteds: seq<Expected> := [];
    var i := 0;
    while i < |alts|
      invariant 0 <= i <= |alts| && st.Valid() && st.input == s0.input
      invariant OneOfLoop(alts, i, st.Snapshot(), firstTime, err, childExpecteds) == RunOneOf(alts, s0)
    {
      ghost var before := st.Snapshot();
      var thisStartLoc := st.location;
      var success, r, grandchildExpecteds := TryParse(alts[i], st, []);
      ghost var o := Run(alts[i], before);
      assert OneOfLoop(alts, i, before, firstTime, err, childExpecteds) == RunOneOf(alts, s0);
      if success == Succeeded || success.Threw? {
        return success, r, expecteds;
      }
      if st.location > thisStartLoc {
        return Failed, VUnit, expecteds + grandchildExpecteds;
      }
      assert grandchildExpecteds == o.added && st.Snapshot() == o.state;
      ghost var err0, child0 := err, childExpecteds;
      childExpecteds := childExpecteds + grandchildExpecteds;
      if firstTime || st.ErrorLocation() > err.errorLocation {
        err := st.GetError();
      }
      assert OneOfLoop(alts, i, before, firstTime, err0, child0) == OneOfLoop(alts, i + 1, st.Snapshot(), false, err, childExpecteds);
      firstTime := false;
      i := i + 1;
    }
    st.SetErrorRecord(err);
    return Failed, VUnit, expecteds + childExpecteds;
  }

  // ---------------------------------------------------------------------------------------
  // Backtracking and negation

  method TryParseTry(q: Parser, st: ParseState, expecteds: seq<Expected>)
    returns (status: Status, result: Value, expecteds': seq<Expected>)
    requires st.Valid()
    modifies st
    ensures st.Valid()
    ensures Matches(RunTry(q, old(st.Snapshot())), status, result, st.Snapshot(), expecteds, expecteds')
    decreases Try(q), 1, 0
  {
    st.PushBookmark();
    status, result, expecteds' := TryParse(q, st, expecteds);
    if status.Threw? {
      return;
    }
    if status != Succeeded {
      st.Rewind();
      return;
    }
    st.PopBookmark();
  }

  method TryParseLookahead(q: Parser, st: ParseState, expecteds: seq<Expected>)
    returns (status: Status, result: Value, expecteds': seq<Expected>)
    requires st.Valid()
    modifies st
    ensures st.Valid()
    ensures Matches(RunLookahead(q, old(st.Snapshot())), status, result, st.Snapshot(), expecteds, expecteds')
    decreases Lookahead(q), 1, 0
  {
    st.PushBookmark();
    status, result, expecteds' := TryParse(q, st, expecteds);
    if status.Threw? {
      return;
    }
    if status == Succeeded {
      st.Rewind();
      return;
    }
    st.PopBookmark();
  }

  method TryParseNot(q: Parser, st: ParseState, expecteds: seq<Expected>)
    returns (status: Status, result: Value, expecteds': seq<Expected>)
    requires st.Valid()
    modifies st
    ensures st.Valid()
    ensures Matches(RunNot(q, old(st.Snapshot())), status, result, st.Snapshot(), expecteds, expecteds')
    decreases Not(q), 1, 0
  {
    ghost var s0 := st.Snapshot();
    var startingLocation := st.location;
    var token := if st.HasCurrent() then Some(st.Current()) else None;
    st.PushBookmark();
    var success, r, childExpecteds := TryParse(q, st, []);
    ghost var i := Run(q, Pushed(s0));
    assert success == i.status && st.Snapshot() == i.state;
    if success.Threw? {
      return success, r, expecteds;
    }
    st.PopBookmark();
    if success == Succeeded {
      st.SetError(token, false, startingLocation, None);
      return Failed, VUnit, expecteds;
    }
    return Succeeded, VUnit, expecteds;
  }

  // ---------------------------------------------------------------------------------------
  // Assertions, expected sets and recovery

  method TryParseAssert(q: Parser, assertion: Value -> bool, messageOf: Value -> string, st: ParseState, expecteds: seq<Expected>)
    returns (status: Status, result: Value, expecteds': seq<Expected>)
    requires st.Valid()
    modifies st
    ensures st.Valid()
    ensures Matches(RunAssert(q, assertion, messageOf, old(st.Snapshot())), status, result, st.Snapshot(), expecteds, expecteds')
    decreases Assert(q, assertion, messageOf), 1, 0
  {
    var childExpecteds;
    status, result, childExpecteds := TryParse(q, st, []);
    expecteds' := if status == Succeeded then expecteds + childExpecteds else expecteds;
    if status != Succeeded {
      return;
    }
    if !assertion(result) {
      st.SetError(None, false, st.location, Some(messageOf(result)));
      return Failed, VUnit, expecteds' + [AssertionExpected];
    }
  }

  method TryParseWithExpected(q: Parser, expected: seq<Expected>, st: ParseState, expecteds: seq<Expected>)
    returns (status: Status, result: Value, expecteds': seq<Expected>)
    requires st.Valid()
    modifies st
    ensures st.Valid()
    ensures Matches(RunWithExpected(q, expected, old(st.Snapshot())), status, result, st.Snapshot(), expecteds, expecteds')
    decreases WithExpected(q, expected), 1, 0
  {
    var childExpecteds;
    status, result, childExpecteds := TryParse(q, st, []);
    expecteds' := if status == Failed then expecteds + expected else expecteds;
  }

  method TryParseRecoverWith(q: Parser, handler: ParseError -> nat, recoveries: seq<Parser>, st: ParseState, expecteds: seq<Expected>)
    returns (status: Status, result: Value, expecteds': seq<Expected>)
    requires st.Valid()
    modifies st
    ensures st.Valid()
    ensures Matches(RunRecoverWith(q, handler, recoveries, old(st.Snapshot())), status, result, st.Snapshot(), expecteds, expecteds')
    decreases RecoverWith(q, handler, recoveries), 1, 0
  {
    ghost var s0 := st.Snapshot();
    var childExpecteds;
    status, result, childExpecteds := TryParse(q, st, []);
    ghost var i := Run(q, s0);
    assert childExpecteds == i.added;
    if status == Succeeded || status.Threw? {
      return status, result, expecteds;
    }
    var recoverParser := handler(st.BuildError(childExpecteds));
    assert recoverParser == handler(ErrorFrom(i.state, i.added));
    if recoverParser >= |recoveries| {
      return Threw(NullReference), VUnit, expecteds;
    }
    status, result, expecteds' := TryParse(recoveries[recoverParser], st, expecteds);
  }

  // ---------------------------------------------------------------------------------------
  // Parsers that do not run another parser

  method TryParseFail(message: string, st: ParseState, expecteds: seq<Expected>)
    returns (status: Status, result: Value, expecteds': seq<Expected>)
    requires st.Valid()
    modifies st
    ensures st.Valid()
    ensures Matches(RunFail(message, old(st.Snapshot())), status, result, st.Snapshot(), expecteds, expecteds')
  {
    st.SetError(None, false, st.location, Some(message));
    return Failed, VUnit, expecteds + [FailExpected];
  }

  method TryParseEnd(st: ParseState, expecteds: seq<Expected>)
    returns (status: Status, result: Value, expecteds': seq<Expected>)
    requires st.Valid()
    modifies st
    ensures st.Valid()
    ensures Matches(RunEnd(old(st.Snapshot())), status, result, st.Snapshot(), expecteds, expecteds')
  {
    if st.HasCurrent() {
      st.SetError(Some(st.Current()), false, st.location, None);
      return Failed, VUnit, expecteds + [DefaultExpected];
    }
    return Succeeded, VUnit, expecteds;
  }

  // ---------------------------------------------------------------------------------------
  // User state

  method TryParseWithUserState(q: Parser, st: ParseState, expecteds: seq<Expected>)
    returns (status: Status, result: Value, expecteds': seq<Expected>)
    requires st.Valid()
    modifies st
    ensures st.Valid()
    ensures Matches(RunWithUserState(q, old(st.Snapshot())), status, result, st.Snapshot(), expecteds, expecteds')
    decreases WithUserState(q), 1, 0
  {
    status, result, expecteds' := TryParse(q, st, expecteds);
    if status == Succeeded {
      result := VPair(result, st.userState);
    }
  }

  method TryParseMapUserState(q: Parser, update: (Value, Value) -> Value, st: ParseState, expecteds: seq<Expected>)
    returns (status: Status, result: Value, expecteds': seq<Expected>)
    requires st.Valid()
    modifies st
    ensures st.Valid()
    ensures Matches(RunMapUserState(q, update, old(st.Snapshot())), status, result, st.Snapshot(), expecteds, expecteds')
    decreases MapUserState(q, update), 1, 0
  {
    status, result, expecteds' := TryParse(q, st, expecteds);
    if status == Succeeded {
      st.SetUserState(update(result, st.userState));
    }
  }

  // ---------------------------------------------------------------------------------------
  // Separated lists

  method TryParseSeparatedAtLeastOnce(item: Parser, remainder: Parser, st: ParseState, expecteds: seq<Expected>)
    returns (status: Status, result: Value, expecteds': seq<Expected>)
    requires st.Valid()
    modifies st
    ensures st.Valid()
    ensures Matches(RunSeparatedAtLeastOnce(item, remainder, old(st.Snapshot())), status, result, st.Snapshot(), expecteds, expecteds')
    decreases SeparatedAtLeastOnce(item, remainder), 1, 0
  {
    ghost var s0 := st.Snapshot();
    var result1;
    status, result1, expecteds' := TryParse(item, st, expecteds);
    ghost var first := Run(item, s0);
    if status != Succeeded {
      return status, result1, expecteds';
    }
    status, result, expecteds' := Rest(remainder, st, expecteds', [result1]);
    AppendTwice(expecteds, first.added, RestLoop(remainder, first.state, [first.result]).added);
  }

  method TryParseSeparatedAndOptionallyTerminated(item: Parser, separator: Parser, st: ParseState, expecteds: seq<Expected>)
    returns (status: Status, result: Value, expecteds': seq<Expected>)
    requires st.Valid()
    modifies st
    ensures st.Valid()
    ensures Matches(RunSeparatedAndOptionallyTerminated(item, separator, old(st.Snapshot())), status, result, st.Snapshot(), expecteds, expecteds')
    decreases SeparatedAndOptionallyTerminatedAtLeastOnce(item, separator), 1, 2
  {
    var result1;
    status, result1, expecteds' := TryParse(item, st, expecteds);
    if status != Succeeded {
      return status, result1, expecteds';
    }
    status, result, expecteds' := OptionallyTerminatedRest(item, separator, st, expecteds', [result1]);
  }

  /** The separator-then-item loop of SeparatedAndOptionallyTerminatedAtLeastOnceParser, with the no-progress check. */
  method OptionallyTerminatedRest(item: Parser, separator: Parser, st: ParseState, expecteds: seq<Expected>, ts: seq<Value>)
    returns (status: Status, result: Value, expecteds': seq<Expected>)
    requires st.Valid()
    modifies st
    ensures st.Valid()
    ensures Matches(OptionallyTerminatedLoop(item, separator, old(st.Snapshot()), ts), status, result, st.Snapshot(), expecteds, expecteds')
    decreases SeparatedAndOptionallyTerminatedAtLeastOnce(item, separator), 1, 1
  {
    ghost var s0 := st.Snapshot();
    var items := ts;
    while true
      invariant st.Valid() && st.input == s0.input
      invariant OptionallyTerminatedLoop(item, separator, st.Snapshot(), items) == OptionallyTerminatedLoop(item, separator, s0, ts)
      decreases |st.input| - st.location
    {
      ghost var start := st.Snapshot();
      var sepStartLoc := st.location;
      var again, childExpecteds;
      again, status, result, childExpecteds := SeparatorStep(item, separator, st, items);
      if !again {
        return status, result, expecteds + childExpecteds;
      }
      again, status, result, childExpecteds, items := ItemStep(item, separator, start, sepStartLoc, st, items);
      if !again {
        return status, result, expecteds + childExpecteds;
      }
    }
  }

  /**
   * The separator of one iteration. When it succeeds the item comes next (`again`); otherwise
   * its outcome is the loop's.
   */
  method SeparatorStep(item: Parser, separator: Parser, st: ParseState, ts: seq<Value>)
    returns (again: bool, status: Status, result: Value, childExpecteds: seq<Expected>)
    requires st.Valid()
    modifies st
    ensures st.Valid()
    ensures again ==> (old(st.Snapshot()).location <= st.location && old(st.Snapshot()).bookmarks == st.bookmarks
      && old(st.Snapshot()).input == st.input
      && OptionallyTerminatedLoop(item, separator, old(st.Snapshot()), ts) == AfterSeparator(item, separator, old(st.Snapshot()), st.Snapshot(), ts))
    ensures !again ==> Matches(OptionallyTerminatedLoop(item, separator, old(st.Snapshot()), ts), status, result, st.Snapshot(), [], childExpecteds)
    decreases SeparatedAndOptionallyTerminatedAtLeastOnce(item, separator), 1, 0
  {
    ghost var before := st.Snapshot();
    var sepStartLoc := st.location;
    var sepSuccess, _, sepExpecteds := TryParse(separator, st, []);
    ghost var so := Run(separator, before);
    assert sepSuccess == so.status && st.Snapshot() == so.state && sepExpecteds == so.added;
    var sepConsumedInput := st.location > sepStartLoc;
    if sepSuccess.Threw? {
      return false, sepSuccess, VUnit, [];
    }
    if sepSuccess != Succeeded {
      if sepConsumedInput {
        return false, Failed, VUnit, sepExpecteds;
      }
      return false, Succeeded, VList(ts), [];
    }
    SeparatorSucceeded(item, separator, before, ts);
    return true, Succeeded, VUnit, [];
  }

  lemma SeparatorSucceeded(item: Parser, separator: Parser, s: State, ts: seq<Value>)
    requires ValidState(s) && Run(separator, s).status == Succeeded
    ensures s.location <= Run(separator, s).state.location && s.bookmarks == Run(separator, s).state.bookmarks
    ensures s.input == Run(separator, s).state.input
    ensures OptionallyTerminatedLoop(item, separator, s, ts) == AfterSeparator(item, separator, s, Run(separator, s).state, ts)
  {
  }

  lemma ItemSucceeded(item: Parser, separator: Parser, start: State, s: State, ts: seq<Value>)
    requires ValidState(s) && start.location <= s.location && start.bookmarks == s.bookmarks && start.input == s.input
    requires Run(item, s).status == Succeeded && start.location < Run(item, s).state.location
    ensures AfterSeparator(item, separator, start, s, ts) == OptionallyTerminatedLoop(item, separator, Run(item, s).state, ts + [Run(item, s).result])
  {
  }

  /**
   * The item of an iteration that started in `start`. When it succeeds and Location moved past
   * where the separator started, the loop goes on with its result appended (`again`); otherwise
   * its outcome is the loop's.
   */
  method ItemStep(item: Parser, separator: Parser, ghost start: State, sepStartLoc: nat, st: ParseState, ts: seq<Value>)
    returns (again: bool, status: Status, result: Value, childExpecteds: seq<Expected>, ts': seq<Value>)
    requires sepStartLoc == start.location
    requires st.Valid() && start.location <= st.location && start.bookmarks == st.bookmarks && start.input == st.input
    modifies st
    ensures st.Valid() && st.input == start.input
    ensures again ==> (start.location < st.location
      && AfterSeparator(item, separator, start, old(st.Snapshot()), ts) == OptionallyTerminatedLoop(item, separator, st.Snapshot(), ts'))
    ensures !again ==> Matches(AfterSeparator(item, separator, start, old(st.Snapshot()), ts), status, result, st.Snapshot(), [], childExpecteds)
    decreases SeparatedAndOptionallyTerminatedAtLeastOnce(item, separator), 1, 0
  {
    ts' := ts;
    ghost var before := st.Snapshot();
    var itemStartLoc := st.location;
    var itemSuccess, itemResult, itemExpecteds := TryParse(item, st, []);
    var itemConsumedInput := st.location > itemStartLoc;
    if itemSuccess.Threw? {
      return false, itemSuccess, VUnit, [], ts;
    }
    if itemSuccess != Succeeded {
      if itemConsumedInput {
        return false, Failed, VUnit, itemExpecteds, ts;
      }
      return false, Succeeded, VList(ts), [], ts;
    }
    if st.location <= sepStartLoc {
      return false, Threw(InvalidOperation(NoProgressMessage)), VUnit, [], ts;
    }
    ItemSucceeded(item, separator, start, before, ts);
    return true, Succeeded, VUnit, [], ts + [itemResult];
  }

  // ---------------------------------------------------------------------------------------
  // Scanners

  method TryParseRepeatString(q: Parser, count: nat, st: ParseState, expecteds: seq<Expected>)
    returns (status: Status, result: Value, expecteds': seq<Expected>)
    requires st.Valid()
    modifies st
    ensures st.Valid()
    ensures Matches(RepeatLoop(q, count, 0, old(st.Snapshot()), [], []), status, result, st.Snapshot(), expecteds, expecteds')
    decreases RepeatString(q, count), 1, count + 1
  {
    ghost var s0 := st.Snapshot();
    var builder: seq<char> := [];
    ghost var added: seq<Expected> := [];
    expecteds' := expecteds;
    for i := 0 to count
      invariant st.Valid() && st.input == s0.input
      invariant expecteds' == expecteds + added
      invariant RepeatLoop(q, count, i, st.Snapshot(), builder, added) == RepeatLoop(q, count, 0, s0, [], [])
    {
      ghost var before := st.Snapshot();
      var result1;
      status, result1, expecteds' := TryParse(q, st, expecteds');
      added := added + Run(q, before).added;
      if status != Succeeded {
        return status, VUnit, expecteds';
      }
      builder := builder + [AsChar(result1)];
    }
    return Succeeded, VStr(builder), expecteds';
  }

  method TryParseCIString(literal: string, st: ParseState, expecteds: seq<Expected>)
    returns (status: Status, result: Value, expecteds': seq<Expected>)
    requires st.Valid()
    modifies st
    ensures st.Valid()
    ensures Matches(RunCIString(literal, old(st.Snapshot())), status, result, st.Snapshot(), expecteds, expecteds')
  {
    var span := st.LookAhead(|literal|);
    var errorPos := -1;
    var i := 0;
    while i < |span|
      invariant 0 <= i <= |span| && errorPos == -1
      invariant MismatchFrom(span, literal, i) == MismatchFrom(span, literal, 0)
    {
      if !SameIgnoringCase(span[i], literal[i]) {
        errorPos := i;
        break;
      }
      i := i + 1;
    }
    if errorPos != -1 {
      st.Advance(errorPos);
      st.SetError(Some(span[errorPos]), false, st.location, None);
      return Failed, VUnit, expecteds + [TokensExpected(literal)];
    }
    if |span| < |literal| {
      st.Advance(|span|);
      st.SetError(None, true, st.location, None);
      return Failed, VUnit, expecteds + [TokensExpected(literal)];
    }
    st.Advance(|literal|);
    return Succeeded, VStr(span), expecteds;
  }

  /** Whether the group of four characters at `k` is four spaces (the fast path's test). */
  predicate FourSpaces(chunk: seq<char>, k: nat)
    requires k + 4 <= |chunk|
  {
    chunk[k..k + 4] == "    "
  }

  method TryParseSkipWhitespaces(st: ParseState, expecteds: seq<Expected>)
    returns (status: Status, result: Value, expecteds': seq<Expected>)
    requires st.Valid()
    modifies st
    ensures st.Valid()
    ensures Matches(RunSkipWhitespaces(old(st.Snapshot())), status, result, st.Snapshot(), expecteds, expecteds')
  {
    ghost var s0 := st.Snapshot();
    ghost var e := WhitespaceEnd(s0.input, s0.location);
    status, result, expecteds' := Succeeded, VUnit, expecteds;
    var chunk := st.LookAhead(32);
    while |chunk| == 32
      invariant st.Valid() && st.Snapshot() == s0.(location := st.location)
      invariant s0.location <= st.location <= e
      invariant chunk == Span(st.Snapshot(), 32)
      decreases |st.input| - st.location
    {
      var found := ScanGroups(st, chunk, 8, e);
      if found {
        return;
      }
      st.Advance(32);
      chunk := st.LookAhead(32);
    }
    var remainingGroupsOfFour := |chunk| / 4;
    var found := ScanGroups(st, chunk, remainingGroupsOfFour, e);
    if found {
      return;
    }
    for i := remainingGroupsOfFour * 4 to |chunk|
      invariant st.Snapshot() == s0.(location := st.location) && st.location + i <= e
    {
      if !IsWhiteSpace(chunk[i]) {
        st.Advance(i);
        return;
      }
    }
    st.Advance(|chunk|);
  }

  /**
   * The group-of-four loop of the whitespace skipper over the first `groups` groups of `chunk`,
   * the tokens at Location. A group of four spaces is skipped whole; any other group is checked
   * one character at a time, and the first non-whitespace character stops the skipper there.
   * `e` is where the run of whitespace at Location ends.
   */
  method ScanGroups(st: ParseState, chunk: seq<char>, groups: nat, ghost e: nat) returns (found: bool)
    requires st.Valid() && 4 * groups <= |chunk| && chunk == Span(st.Snapshot(), |chunk|)
    requires st.location <= e <= |st.input|
    requires forall j :: st.location <= j < e ==> IsWhiteSpace(st.input[j])
    requires e == |st.input| || !IsWhiteSpace(st.input[e])
    modifies st
    ensures st.Valid()
    ensures found ==> st.Snapshot() == old(st.Snapshot()).(location := e)
    ensures !found ==> st.Snapshot() == old(st.Snapshot()) && st.location + 4 * groups <= e
  {
    for i := 0 to groups
      invariant st.Snapshot() == old(st.Snapshot()) && st.location + 4 * i <= e
    {
      if !FourSpaces(chunk, 4 * i) {
        for j := 0 to 4
          invariant st.Snapshot() == old(st.Snapshot()) && st.location + 4 * i + j <= e
        {
          if !IsWhiteSpace(chunk[4 * i + j]) {
            st.Advance(4 * i + j);
            return true;
          }
        }
      } else {
        ghost var group := chunk[4 * i..4 * i + 4];
        assert group[0] == group[1] == group[2] == group[3] == ' ';
        assert chunk[4 * i] == group[0] && chunk[4 * i + 1] == group[1];
        assert chunk[4 * i + 2] == group[2] && chunk[4 * i + 3] == group[3];
      }
    }
    return false;
  }
}
