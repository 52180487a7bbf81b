/**
 * What each combinator's TryParse does, as a function of the parse state.
 *
 * `Run(p, s)` runs parser `p` from state `s`. The outcome records:
 * - whether the parser succeeded, failed, or raised an exception;
 * - its result;
 * - the new state;
 * - the entries it appended to the caller's expected list (`added`).
 *
 * A combinator that keeps a child list passes an empty list to its inner parser and decides
 * what to forward. The imperative TryParse methods are proved to do exactly this.
 */
module Parsers {
  import opened Wrappers
  import opened Values
  import opened ParseStates
  import opened Text

  datatype Parser =
    // Combinators defined outside the modelled files, with minimal semantics.
    | Token(accept: char -> bool, expected: seq<Expected>)
    | Map1(f: Value -> Value, p: Parser)
    | Map2(f2: (Value, Value) -> Value, p: Parser, q: Parser)
    | Sequence(ps: seq<Parser>)
    | AtLeastOnce(p: Parser)
    | Many(p: Parser)
    // The modelled combinators.
    | OneOf(alts: seq<Parser>)
    | Try(p: Parser)
    | Lookahead(p: Parser)
    | Not(p: Parser)
    | Assert(p: Parser, assertion: Value -> bool, messageOf: Value -> string)
    | WithExpected(p: Parser, expected: seq<Expected>)
    | RecoverWith(p: Parser, handler: ParseError -> nat, recoveries: seq<Parser>)
    | Return(v: Value)
    | Fail(message: string)
    | End
    | CurrentOffset
    | UserState
    | WithUserState(p: Parser)
    | MapUserState(p: Parser, update: (Value, Value) -> Value)
    | SeparatedAtLeastOnce(p: Parser, remainder: Parser)
    | SeparatedAndOptionallyTerminatedAtLeastOnce(p: Parser, separator: Parser)
    | RepeatString(p: Parser, count: nat)
    | CIString(literal: string)
    | SkipWhitespaces

  datatype Status = Succeeded | Failed | Threw(exn: Exception)

  datatype Outcome = Outcome(status: Status, result: Value, state: State, added: seq<Expected>)

  const NoArgumentsMessage: string := "OneOf had no arguments"
  const NoProgressMessage: string := "Many() used with a parser which consumed no input"
  const AssertionExpected: Expected := LabelExpected("result satisfying assertion")
  const FailExpected: Expected := TokensExpected([])

  /**
   * What every parser guarantees:
   * - the state stays valid over the same input;
   * - a parser that does not succeed returns the default result;
   * - a parser that returns normally never moves Location backwards past where it started,
   *   and leaves the bookmark stack as it found it.
   */
  predicate Sound(s: State, o: Outcome)
  {
    && ValidState(o.state) && o.state.input == s.input
    && (o.status != Succeeded ==> o.result == VUnit)
    && (!o.status.Threw? ==> s.location <= o.state.location && o.state.bookmarks == s.bookmarks)
  }

  /** The combinators defined outside the modelled files, given just enough behaviour to drive the others. */
  predicate IsBasic(p: Parser)
  {
    p.Token? || p.Map1? || p.Map2? || p.Sequence? || p.AtLeastOnce? || p.Many?
  }

  /** Choice, backtracking, negation, assertions, expected sets and error recovery. */
  predicate IsControl(p: Parser)
  {
    p.OneOf? || p.Try? || p.Lookahead? || p.Not? || p.Assert? || p.WithExpected? || p.RecoverWith?
  }

  /** Parsers that read no token: constants, failure, end of input, position and user state. */
  predicate IsPrimitive(p: Parser)
  {
    p.Return? || p.Fail? || p.End? || p.CurrentOffset? || p.UserState? || p.WithUserState? || p.MapUserState?
  }

  /**
   * The behaviour of parser `p` started in state `s`: TryParse's return value, `result`, the new
   * state and the entries it appends to the caller's expected list.
   * The dispatch goes through four groups, so that a parser not known to the prover unfolds
   * into four cases rather than one per combinator.
   */
  function Run(p: Parser, s: State): (o: Outcome)
    requires ValidState(s)
    ensures Sound(s, o)
    decreases p, 3, 0
  {
    if IsBasic(p) then RunBasic(p, s)
    else if IsControl(p) then RunControl(p, s)
    else if IsPrimitive(p) then RunPrimitive(p, s)
    else RunRepetition(p, s)
  }

  function RunBasic(p: Parser, s: State): (o: Outcome)
    requires IsBasic(p) && ValidState(s)
    ensures Sound(s, o)
    decreases p, 2, 0
  {
    match p
    case Token(accept, expected) => RunToken(accept, expected, s)
    case Map1(f, q) => RunMap1(f, q, s)
    case Map2(f2, q1, q2) => RunMap2(f2, q1, q2, s)
    case Sequence(ps) => SequenceLoop(ps, 0, s, [], [])
    case AtLeastOnce(q) => RunAtLeastOnce(q, s)
    case Many(q) => RestLoop(q, s, [])
  }

  function RunControl(p: Parser, s: State): (o: Outcome)
    requires IsControl(p) && ValidState(s)
    ensures Sound(s, o)
    decreases p, 2, 0
  {
    match p
    case OneOf(alts) => RunOneOf(alts, s)
    case Try(q) => RunTry(q, s)
    case Lookahead(q) => RunLookahead(q, s)
    case Not(q) => RunNot(q, s)
    case Assert(q, assertion, messageOf) => RunAssert(q, assertion, messageOf, s)
    case WithExpected(q, expected) => RunWithExpected(q, expected, s)
    case RecoverWith(q, handler, recoveries) => RunRecoverWith(q, handler, recoveries, s)
  }

  function RunPrimitive(p: Parser, s: State): (o: Outcome)
    requires IsPrimitive(p) && ValidState(s)
    ensures Sound(s, o)
    decreases p, 2, 0
  {
    match p
    case Return(v) => RunReturn(v, s)
    case Fail(message) => RunFail(message, s)
    case End => RunEnd(s)
    case CurrentOffset => RunCurrentOffset(s)
    case UserState => RunUserState(s)
    case WithUserState(q) => RunWithUserState(q, s)
    case MapUserState(q, update) => RunMapUserState(q, update, s)
  }

  /** Separated lists and the scanners that repeat, compare or skip tokens. */
  function RunRepetition(p: Parser, s: State): (o: Outcome)
    requires !IsBasic(p) && !IsControl(p) && !IsPrimitive(p) && ValidState(s)
    ensures Sound(s, o)
    decreases p, 2, 0
  {
    match p
    case SeparatedAtLeastOnce(item, remainder) => RunSeparatedAtLeastOnce(item, remainder, s)
    case SeparatedAndOptionallyTerminatedAtLeastOnce(item, separator) => RunSeparatedAndOptionallyTerminated(item, separator, s)
    case RepeatString(q, count) => RepeatLoop(q, count, 0, s, [], [])
    case CIString(literal) => RunCIString(literal, s)
    case SkipWhitespaces => RunSkipWhitespaces(s)
  }

  // ---------------------------------------------------------------------------------------
  // Combinators outside the modelled files: just enough behaviour to drive the others.

  /** One token satisfying `accept`; on failure the error names the token, or end of input. */
  function RunToken(accept: char -> bool, expected: seq<Expected>, s: State): (o: Outcome)
    requires ValidState(s)
    ensures Sound(s, o)
    ensures !o.status.Threw?
    ensures o.status == Succeeded <==> s.location < |s.input| && accept(s.input[s.location])
    ensures o.status == Succeeded ==> o.result == VChar(s.input[s.location]) && o.state.location == s.location + 1 && o.added == []
    ensures o.status == Failed ==> o.state.location == s.location && o.added == expected
    ensures o.status == Failed ==> o.state.error == InternalError(CurrentToken(s), s.location == |s.input|, s.location, None)
  {
    if s.location == |s.input| then
      Outcome(Failed, VUnit, WithError(s, InternalError(None, true, s.location, None)), expected)
    else if !accept(s.input[s.location]) then
      Outcome(Failed, VUnit, WithError(s, InternalError(Some(s.input[s.location]), false, s.location, None)), expected)
    else
      Outcome(Succeeded, VChar(s.input[s.location]), Advanced(s, 1), [])
  }

  /** Select/Map: the inner outcome with its successful result transformed. */
  function RunMap1(f: Value -> Value, q: Parser, s: State): (o: Outcome)
    requires ValidState(s)
    ensures Sound(s, o)
    ensures var i := Run(q, s);
      o.status == i.status && o.state == i.state && o.added == i.added
      && (i.status == Succeeded ==> o.result == f(i.result))
    decreases Map1(f, q), 1, 0
  {
    var i := Run(q, s);
    if i.status == Succeeded then i.(result := f(i.result)) else i
  }

  /** Map over two parsers run one after the other; both append to the caller's list. */
  function RunMap2(f2: (Value, Value) -> Value, q1: Parser, q2: Parser, s: State): (o: Outcome)
    requires ValidState(s)
    ensures Sound(s, o)
    ensures Run(q1, s).status != Succeeded ==> o == Run(q1, s)
    ensures o.status == Succeeded <==> Run(q1, s).status == Succeeded && Run(q2, Run(q1, s).state).status == Succeeded
    ensures o.status == Succeeded ==> o.result == f2(Run(q1, s).result, Run(q2, Run(q1, s).state).result)
    decreases Map2(f2, q1, q2), 1, 0
  {
    var o1 := Run(q1, s);
    if o1.status != Succeeded then o1
    else
      var o2 := Map2Second(f2, o1.result, q2, o1.state);
      o2.(added := o1.added + o2.added)
  }

  /** The second half of Map2, once the first parser has returned `x`. */
  function Map2Second(f2: (Value, Value) -> Value, x: Value, q2: Parser, s: State): (o: Outcome)
    requires ValidState(s)
    ensures Sound(s, o)
    ensures o.status == Run(q2, s).status && o.state == Run(q2, s).state && o.added == Run(q2, s).added
    ensures o.status == Succeeded ==> o.result == f2(x, Run(q2, s).result)
    decreases q2, 3, 1
  {
    var o2 := Run(q2, s);
    if o2.status != Succeeded then o2 else o2.(result := f2(x, o2.result))
  }

  /** Map over three parsers: the first two results are paired, then combined with the third. */
  function Map3(f3: (Value, Value, Value) -> Value, p: Parser, q: Parser, r: Parser): Parser
  {
    Map2((xy: Value, z: Value) => if xy.VPair? then f3(xy.fst, xy.snd, z) else f3(VUnit, VUnit, z),
         Map2((x, y) => VPair(x, y), p, q), r)
  }

  /** Sequence: runs `ps[i..]` in order, collecting their results; the first failure ends it. */
  function SequenceLoop(ps: seq<Parser>, i: nat, s: State, results: seq<Value>, added: seq<Expected>): (o: Outcome)
    requires i <= |ps| && ValidState(s)
    ensures Sound(s, o)
    ensures o.status == Succeeded ==> o.result.VList? && |o.result.items| == |results| + |ps| - i
    decreases Sequence(ps), 1, |ps| - i
  {
    if i == |ps| then Outcome(Succeeded, VList(results), s, added)
    else
      var o := Run(ps[i], s);
      if o.status != Succeeded then o.(added := added + o.added)
      else SequenceLoop(ps, i + 1, o.state, results + [o.result], added + o.added)
  }

  /** AtLeastOnce: one run of `q` with the caller's list, then the repetition loop. */
  function RunAtLeastOnce(q: Parser, s: State): (o: Outcome)
    requires ValidState(s)
    ensures Sound(s, o)
    ensures Run(q, s).status != Succeeded ==> o == Run(q, s)
    ensures o.status == Succeeded ==> o.result.VList? && |o.result.items| >= 1
    decreases AtLeastOnce(q), 1, 0
  {
    var first := Run(q, s);
    if first.status != Succeeded then first
    else
      var rest := RestLoop(q, first.state, [first.result]);
      rest.(added := first.added + rest.added)
  }

  /**
   * The repetition loop (SeparatedAtLeastOnceParser.Rest, also used for AtLeastOnce and Many).
   * Each successful step must advance Location, otherwise the loop throws. The loop ends when a
   * step fails: successfully if that step consumed nothing, and with failure otherwise.
   */
  function RestLoop(step: Parser, s: State, ts: seq<Value>): (o: Outcome)
    requires ValidState(s)
    ensures Sound(s, o)
    ensures o.status == Succeeded ==> o.result.VList? && |o.result.items| >= |ts| && o.result.items[..|ts|] == ts
    ensures o.status == Succeeded ==> o.added == []
    ensures var r := Run(step, s);
      && (r.status == Succeeded && r.state.location <= s.location ==> o.status == Threw(InvalidOperation(NoProgressMessage)))
      && (r.status == Failed && r.state.location <= s.location ==> o == Outcome(Succeeded, VList(ts), r.state, []))
      && (r.status == Failed && r.state.location > s.location ==> o == r)
    decreases step, 4, |s.input| - s.location
  {
    var o := Run(step, s);
    if o.status.Threw? then o.(added := [])
    else if o.status == Succeeded then
      if o.state.location <= s.location then Outcome(Threw(InvalidOperation(NoProgressMessage)), VUnit, o.state, [])
      else RestLoop(step, o.state, ts + [o.result])
    else if o.state.location > s.location then o
    else Outcome(Succeeded, VList(ts), o.state, [])
  }

  // ---------------------------------------------------------------------------------------
  // OneOf

  /** The error a OneOf reports when it has no alternatives. */
  function NoArgumentsError(s: State): InternalError
  {
    InternalError(None, false, s.location, Some(NoArgumentsMessage))
  }

  function RunOneOf(alts: seq<Parser>, s: State): (o: Outcome)
    requires ValidState(s)
    ensures Sound(s, o)
    decreases OneOf(alts), 1, |alts| + 1
  {
    OneOfLoop(alts, 0, s, true, NoArgumentsError(s), [])
  }

  /**
   * OneOfParser.TryParse's loop from alternative `i` on, with the loop's variables:
   * `firstTime`, the best error so far `err`, and the expected entries collected so far `child`.
   */
  function OneOfLoop(alts: seq<Parser>, i: nat, s: State, firstTime: bool, err: InternalError, child: seq<Expected>): (o: Outcome)
    requires i <= |alts| && ValidState(s)
    ensures Sound(s, o)
    decreases OneOf(alts), 1, |alts| - i
  {
    if i == |alts| then Outcome(Failed, VUnit, WithError(s, err), child)
    else
      var o := Run(alts[i], s);
      if o.status.Threw? then o.(added := [])
      else if o.status == Succeeded then o.(added := [])
      else if o.state.location > s.location then o
      else
        var err' := if firstTime || o.state.error.errorLocation > err.errorLocation then o.state.error else err;
        OneOfLoop(alts, i + 1, o.state, false, err', child + o.added)
  }

  // ---------------------------------------------------------------------------------------
  // Backtracking and negation

  /** Try: bookmark, run, and rewind to the bookmark on failure. */
  function RunTry(q: Parser, s: State): (o: Outcome)
    requires ValidState(s)
    ensures Sound(s, o)
    ensures var i := Run(q, Pushed(s));
      o.status == i.status && o.result == i.result && o.added == i.added && o.state.error == i.state.error
      && o.state.user == i.state.user
    ensures o.status == Failed ==> o.state.location == s.location
    ensures o.status == Succeeded ==> o.state.location == Run(q, Pushed(s)).state.location
    decreases Try(q), 1, 0
  {
    var i := Run(q, Pushed(s));
    if i.status.Threw? then i
    else if i.status == Succeeded then i.(state := Popped(i.state))
    else i.(state := Rewound(i.state))
  }

  /** Lookahead: bookmark, run, and rewind to the bookmark on success. */
  function RunLookahead(q: Parser, s: State): (o: Outcome)
    requires ValidState(s)
    ensures Sound(s, o)
    ensures var i := Run(q, Pushed(s));
      o.status == i.status && o.result == i.result && o.added == i.added && o.state.error == i.state.error
    ensures o.status == Succeeded ==> o.state.location == s.location
    ensures o.status == Failed ==> o.state.location == Run(q, Pushed(s)).state.location
    decreases Lookahead(q), 1, 0
  {
    var i := Run(q, Pushed(s));
    if i.status.Threw? then i
    else if i.status == Succeeded then i.(state := Rewound(i.state))
    else i.(state := Popped(i.state))
  }

  /**
   * Not: succeeds with Unit exactly when the inner parser fails. It never rewinds, and the
   * inner parser's expected entries never reach the caller.
   */
  function RunNot(q: Parser, s: State): (o: Outcome)
    requires ValidState(s)
    ensures Sound(s, o)
    ensures o.added == []
    ensures var i := Run(q, Pushed(s));
      && (o.status == Succeeded <==> i.status == Failed)
      && (o.status == Failed <==> i.status == Succeeded)
      && (o.status == Succeeded ==> o.result == VUnit && o.state.error == i.state.error)
      && (!o.status.Threw? ==> o.state.location == i.state.location)
    ensures o.status == Failed ==> o.state.error == InternalError(CurrentToken(s), false, s.location, None)
    decreases Not(q), 1, 0
  {
    var token := CurrentToken(s);
    var i := Run(q, Pushed(s));
    if i.status.Threw? then i.(added := [])
    else
      var after := Popped(i.state);
      if i.status == Succeeded then Outcome(Failed, VUnit, WithError(after, InternalError(token, false, s.location, None)), [])
      else Outcome(Succeeded, VUnit, after, [])
  }

  // ---------------------------------------------------------------------------------------
  // Assertions, expected sets and recovery

  function RunAssert(q: Parser, assertion: Value -> bool, messageOf: Value -> string, s: State): (o: Outcome)
    requires ValidState(s)
    ensures Sound(s, o)
    ensures var i := Run(q, s);
      && (i.status != Succeeded ==> o == i.(added := []))
      && (i.status == Succeeded && assertion(i.result) ==> o == i)
      && (i.status == Succeeded && !assertion(i.result) ==>
            && o.status == Failed && o.state.location == i.state.location
            && o.state.error == InternalError(None, false, i.state.location, Some(messageOf(i.result)))
            && o.added == i.added + [AssertionExpected])
    decreases Assert(q, assertion, messageOf), 1, 0
  {
    var i := Run(q, s);
    if i.status != Succeeded then i.(added := [])
    else if assertion(i.result) then i
    else
      var e := InternalError(None, false, i.state.location, Some(messageOf(i.result)));
      Outcome(Failed, VUnit, WithError(i.state, e), i.added + [AssertionExpected])
  }

  /** WithExpected: on failure the caller receives exactly the configured entries. */
  function RunWithExpected(q: Parser, expected: seq<Expected>, s: State): (o: Outcome)
    requires ValidState(s)
    ensures Sound(s, o)
    ensures var i := Run(q, s);
      o.status == i.status && o.result == i.result && o.state == i.state
    ensures o.added == if o.status == Failed then expected else []
    decreases WithExpected(q, expected), 1, 0
  {
    var i := Run(q, s);
    if i.status == Failed then i.(added := expected) else i.(added := [])
  }

  /**
   * RecoverWith: on failure, the handler picks a recovery parser from the error built over
   * the inner parser's expected entries, and that parser runs from where the inner one stopped.
   * A handler position with no parser stands for a handler returning null.
   */
  function RunRecoverWith(q: Parser, handler: ParseError -> nat, recoveries: seq<Parser>, s: State): (o: Outcome)
    requires ValidState(s)
    ensures Sound(s, o)
    ensures var i := Run(q, s);
      && (i.status.Threw? ==> o == i.(added := []))
      && (i.status == Succeeded ==> o == i.(added := []))
      && (i.status == Failed && handler(ErrorFrom(i.state, i.added)) < |recoveries| ==>
            o == Run(recoveries[handler(ErrorFrom(i.state, i.added))], i.state))
      && (i.status == Failed && handler(ErrorFrom(i.state, i.added)) >= |recoveries| ==> o.status == Threw(NullReference))
    decreases RecoverWith(q, handler, recoveries), 1, 0
  {
    var i := Run(q, s);
    if i.status.Threw? then i.(added := [])
    else if i.status == Succeeded then i.(added := [])
    else
      var k := handler(ErrorFrom(i.state, i.added));
      if k < |recoveries| then Run(recoveries[k], i.state)
      else Outcome(Threw(NullReference), VUnit, i.state, [])
  }

  // ---------------------------------------------------------------------------------------
  // Parsers that do not run another parser

  function RunReturn(v: Value, s: State): (o: Outcome)
    ensures o.status == Succeeded && o.result == v
    ensures o.state == s && o.added == []
  {
    Outcome(Succeeded, v, s, [])
  }

  function RunFail(message: string, s: State): (o: Outcome)
    ensures o.status == Failed && o.result == VUnit
    ensures o.state.location == s.location && o.state.bookmarks == s.bookmarks && o.state.user == s.user
    ensures o.state.error == InternalError(None, false, s.location, Some(message))
    ensures o.added == [FailExpected]
  {
    Outcome(Failed, VUnit, WithError(s, InternalError(None, false, s.location, Some(message))), [FailExpected])
  }

  function RunEnd(s: State): (o: Outcome)
    requires ValidState(s)
    ensures o.status == Succeeded <==> s.location == |s.input|
    ensures o.status != Succeeded ==> o.status == Failed
    ensures o.state.location == s.location && o.state.bookmarks == s.bookmarks && o.state.user == s.user
    ensures o.status == Succeeded ==> o.state == s && o.added == [] && o.result == VUnit
    ensures o.status == Failed ==> o.state.error == InternalError(CurrentToken(s), false, s.location, None)
    ensures o.status == Failed ==> o.added == [DefaultExpected]
  {
    if s.location < |s.input| then
      Outcome(Failed, VUnit, WithError(s, InternalError(Some(s.input[s.location]), false, s.location, None)), [DefaultExpected])
    else Outcome(Succeeded, VUnit, s, [])
  }

  function RunCurrentOffset(s: State): (o: Outcome)
    ensures o.status == Succeeded && o.result == VInt(s.location)
    ensures o.state == s && o.added == []
  {
    Outcome(Succeeded, VInt(s.location), s, [])
  }

  // ---------------------------------------------------------------------------------------
  // User state

  function RunUserState(s: State): (o: Outcome)
    ensures o.status == Succeeded && o.result == s.user
    ensures o.state == s && o.added == []
  {
    Outcome(Succeeded, s.user, s, [])
  }

  /** WithUserState: the inner result paired with the user state the inner parser left. */
  function RunWithUserState(q: Parser, s: State): (o: Outcome)
    requires ValidState(s)
    ensures Sound(s, o)
    ensures var i := Run(q, s);
      && (o.status == Succeeded <==> i.status == Succeeded)
      && o.state == i.state && o.added == i.added
      && (o.status == Succeeded ==> o.result == VPair(i.result, i.state.user))
    decreases WithUserState(q), 1, 0
  {
    var i := Run(q, s);
    if i.status == Succeeded then i.(result := VPair(i.result, i.state.user)) else i
  }

  /** MapUserState: on success the user state becomes `update(result, userState)`. */
  function RunMapUserState(q: Parser, update: (Value, Value) -> Value, s: State): (o: Outcome)
    requires ValidState(s)
    ensures Sound(s, o)
    ensures var i := Run(q, s);
      && o.status == i.status && o.result == i.result && o.added == i.added
      && o.state.location == i.state.location && o.state.error == i.state.error
      && o.state.user == (if i.status == Succeeded then update(i.result, i.state.user) else i.state.user)
    decreases MapUserState(q, update), 1, 0
  {
    var i := Run(q, s);
    if i.status == Succeeded then i.(state := i.state.(user := update(i.result, i.state.user))) else i
  }

  // ---------------------------------------------------------------------------------------
  // Separated lists

  /** SeparatedAtLeastOnceParser: the first item, then Rest over `separator.Then(item)`. */
  function RunSeparatedAtLeastOnce(item: Parser, remainder: Parser, s: State): (o: Outcome)
    requires ValidState(s)
    ensures Sound(s, o)
    ensures Run(item, s).status != Succeeded ==> o == Run(item, s)
    ensures o.status == Succeeded ==> o.result.VList? && |o.result.items| >= 1 && o.result.items[0] == Run(item, s).result
    decreases SeparatedAtLeastOnce(item, remainder), 1, 0
  {
    var first := Run(item, s);
    if first.status != Succeeded then first
    else
      var rest := RestLoop(remainder, first.state, [first.result]);
      rest.(added := first.added + rest.added)
  }

  /** SeparatedAndOptionallyTerminatedAtLeastOnceParser: the first item, then the loop. */
  function RunSeparatedAndOptionallyTerminated(item: Parser, separator: Parser, s: State): (o: Outcome)
    requires ValidState(s)
    ensures Sound(s, o)
    ensures Run(item, s).status != Succeeded ==> o == Run(item, s)
    ensures o.status == Succeeded ==> o.result.VList? && |o.result.items| >= 1 && o.result.items[0] == Run(item, s).result
    decreases SeparatedAndOptionallyTerminatedAtLeastOnce(item, separator), 1, |s.input| - s.location + 1
  {
    var first := Run(item, s);
    if first.status != Succeeded then first
    else
      var rest := OptionallyTerminatedLoop(item, separator, first.state, [first.result]);
      rest.(added := first.added + rest.added)
  }

  /**
   * The separator-then-item loop of the optionally terminated list.
   * A separator or item that fails after consuming input fails the whole parser and forwards
   * its expected entries; one that fails without consuming ends the list successfully.
   * An iteration whose separator and item both succeed without advancing Location throws, like
   * Rest does. The C# loop has no such check and goes on: forever when the pass left the whole
   * state unchanged, or until a later pass ends it when the pass changed the user state.
   */
  function OptionallyTerminatedLoop(item: Parser, separator: Parser, s: State, ts: seq<Value>): (o: Outcome)
    requires ValidState(s)
    ensures Sound(s, o)
    ensures o.status == Succeeded ==> o.result.VList? && |o.result.items| >= |ts| && o.result.items[..|ts|] == ts
    ensures o.status == Succeeded ==> o.added == []
    decreases SeparatedAndOptionallyTerminatedAtLeastOnce(item, separator), 1, |s.input| - s.location, 1
  {
    var so := Run(separator, s);
    if so.status.Threw? then so.(added := [])
    else if so.status == Failed then
      if so.state.location > s.location then so
      else Outcome(Succeeded, VList(ts), so.state, [])
    else AfterSeparator(item, separator, s, so.state, ts)
  }

  /** The item half of an iteration that started in `start` and whose separator succeeded, leaving `s`. */
  function AfterSeparator(item: Parser, separator: Parser, start: State, s: State, ts: seq<Value>): (o: Outcome)
    requires ValidState(s) && start.location <= s.location && start.bookmarks == s.bookmarks && start.input == s.input
    ensures Sound(start, o)
    ensures o.status == Succeeded ==> o.result.VList? && |o.result.items| >= |ts| && o.result.items[..|ts|] == ts
    ensures o.status == Succeeded ==> o.added == []
    decreases SeparatedAndOptionallyTerminatedAtLeastOnce(item, separator), 1, |s.input| - start.location, 0
  {
    var io := Run(item, s);
    if io.status.Threw? then io.(added := [])
    else if io.status == Failed then
      if io.state.location > s.location then io
      else Outcome(Succeeded, VList(ts), io.state, [])
    else if io.state.location <= start.location then
      Outcome(Threw(InvalidOperation(NoProgressMessage)), VUnit, io.state, [])
    else OptionallyTerminatedLoop(item, separator, io.state, ts + [io.result])
  }

  // ---------------------------------------------------------------------------------------
  // Scanners

  /** RepeatStringParser's loop from iteration `i` on, with the characters read so far. */
  function RepeatLoop(q: Parser, count: nat, i: nat, s: State, chars: seq<char>, added: seq<Expected>): (o: Outcome)
    requires i <= count && ValidState(s)
    ensures Sound(s, o)
    ensures o.status == Succeeded ==> o.result.VStr? && |o.result.s| == |chars| + count - i && o.result.s[..|chars|] == chars
    decreases RepeatString(q, count), 1, count - i
  {
    if i == count then Outcome(Succeeded, VStr(chars), s, added)
    else
      var o := Run(q, s);
      if o.status != Succeeded then o.(added := added + o.added)
      else RepeatLoop(q, count, i + 1, o.state, chars + [AsChar(o.result)], added + o.added)
  }

  /** CIStringParser: compare the next |literal| tokens ignoring case. */
  function RunCIString(literal: string, s: State): (o: Outcome)
    requires ValidState(s)
    ensures Sound(s, o)
    ensures o.status != Succeeded ==> o.status == Failed && o.added == [TokensExpected(literal)]
    ensures o.status == Succeeded <==>
      && s.location + |literal| <= |s.input|
      && forall j :: 0 <= j < |literal| ==> SameIgnoringCase(s.input[s.location + j], literal[j])
    ensures o.status == Succeeded ==>
      o.state.location == s.location + |literal| && o.result == VStr(s.input[s.location..s.location + |literal|])
      && o.added == []
    ensures o.state.bookmarks == s.bookmarks && o.state.user == s.user
    ensures o.status == Failed ==> o.state.error.errorLocation == o.state.location
  {
    var span := Span(s, |literal|);
    var errorPos := MismatchFrom(span, literal, 0);
    if errorPos != -1 then
      var moved := Advanced(s, errorPos);
      Outcome(Failed, VUnit, WithError(moved, InternalError(Some(span[errorPos]), false, moved.location, None)), [TokensExpected(literal)])
    else if |span| < |literal| then
      var moved := Advanced(s, |span|);
      Outcome(Failed, VUnit, WithError(moved, InternalError(None, true, moved.location, None)), [TokensExpected(literal)])
    else
      Outcome(Succeeded, VStr(span), Advanced(s, |literal|), [])
  }

  /** SkipWhitespacesParser: skip to the first non-whitespace token. */
  function RunSkipWhitespaces(s: State): (o: Outcome)
    requires ValidState(s)
    ensures o.status == Succeeded && o.result == VUnit && o.added == []
    ensures o.state == s.(location := o.state.location) && ValidState(o.state)
    ensures s.location <= o.state.location
    ensures forall j :: s.location <= j < o.state.location ==> IsWhiteSpace(s.input[j])
    ensures o.state.location == |s.input| || !IsWhiteSpace(s.input[o.state.location])
  {
    var e := WhitespaceEnd(s.input, s.location);
    Outcome(Succeeded, VUnit, Advanced(s, e - s.location), [])
  }
}
