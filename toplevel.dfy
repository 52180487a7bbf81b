/**
 * The top level of a parse: a fresh parse state over the input, an empty list for the expected
 * entries, one run of the parser, and its outcome reported as a result record. A failed parse
 * reports the error built from the state's error record and the entries the parser collected;
 * an exception raised while parsing is not caught and reaches the caller.
 */
module TopLevel {
  import opened Wrappers
  import opened Values
  import opened ParseStates
  import opened Parsers
  import opened Text
  import opened Laws
  import opened Machine

  /** `Result<TToken, TUser, T>`: whether input was consumed, the value or the error, and the final user state. */
  datatype ParseResult =
    | Parsed(consumedInput: bool, value: Value, userState: Value)
    | NotParsed(consumedInput: bool, error: ParseError, userState: Value)

  /** The outcome of a run that started at `startingLoc`, as the top level reports it. */
  function Reported(o: Outcome, startingLoc: nat): Result<ParseResult, Exception>
  {
    match o.status
    case Threw(exn) => Failure(exn)
    case Succeeded => Success(Parsed(o.state.location > startingLoc, o.result, o.state.user))
    case Failed => Success(NotParsed(o.state.location > startingLoc, ErrorFrom(o.state, o.added), o.state.user))
  }

  /** The same report with the user state replaced by `Unit`. */
  function UnitReported(o: Outcome, startingLoc: nat): Result<ParseResult, Exception>
  {
    match Reported(o, startingLoc)
    case Failure(exn) => Failure(exn)
    case Success(r) => Success(r.(userState := VUnit))
  }

  /** The parse of `input` from its start with user state `user`. */
  function Parse(p: Parser, input: seq<char>, user: Value): Result<ParseResult, Exception>
  {
    Reported(Run(p, Initial(input, user)), 0)
  }

  /** `DoParse(parser, ref state)`: one run against the state with a fresh expected list. */
  method DoParse(p: Parser, st: ParseState) returns (r: Result<ParseResult, Exception>)
    requires st.Valid()
    modifies st
    ensures st.Valid()
    ensures r == Reported(Run(p, old(st.Snapshot())), old(st.location))
  {
    var startingLoc := st.location;
    ghost var o := Run(p, st.Snapshot());
    var status, result, expecteds := TryParse(p, st, []);
    assert st.location == o.state.location && st.userState == o.state.user && expecteds == o.added;
    match status
    case Threw(exn) =>
      r := Failure(exn);
    case Succeeded =>
      r := Success(Parsed(st.location > startingLoc, result, st.userState));
    case Failed =>
      r := Success(NotParsed(st.location > startingLoc, st.BuildError(expecteds), st.userState));
  }

  /** The overload for parsers without a user state: the result always carries `Unit`. */
  method DoParseUnit(p: Parser, st: ParseState) returns (r: Result<ParseResult, Exception>)
    requires st.Valid()
    modifies st
    ensures st.Valid()
    ensures r == UnitReported(Run(p, old(st.Snapshot())), old(st.location))
  {
    var startingLoc := st.location;
    ghost var o := Run(p, st.Snapshot());
    var status, result, expecteds := TryParse(p, st, []);
    assert st.location == o.state.location && st.userState == o.state.user && expecteds == o.added;
    match status
    case Threw(exn) =>
      r := Failure(exn);
    case Succeeded =>
      r := Success(Parsed(st.location > startingLoc, result, VUnit));
    case Failed =>
      r := Success(NotParsed(st.location > startingLoc, st.BuildError(expecteds), VUnit));
  }

  /** `DoParse(parser, stream, userState)`: a new state over the whole input, then one run. */
  method ParseInput(p: Parser, input: seq<char>, user: Value) returns (r: Result<ParseResult, Exception>)
    ensures r == Parse(p, input, user)
  {
    var st := new ParseState(input, user);
    r := DoParse(p, st);
  }

  /** The `Unit` overload over a new state: the reported user state is `Unit` whatever the parser did. */
  method ParseInputUnit(p: Parser, input: seq<char>) returns (r: Result<ParseResult, Exception>)
    ensures r.Success? ==> r.value.userState == VUnit
    ensures r.Failure? <==> Parse(p, input, VUnit).Failure?
    ensures r.Success? ==> r.value == Parse(p, input, VUnit).value.(userState := VUnit)
    ensures r == UnitReported(Run(p, Initial(input, VUnit)), 0)
  {
    var st := new ParseState(input, VUnit);
    r := DoParseUnit(p, st);
  }

  /**
   * What a top-level parse reports: success exactly when the parser succeeded, carrying its
   * value; input counted as consumed exactly when the final location is past the start,
   * whether or not the parse succeeded; on failure the error built over exactly the entries
   * the parser added to the empty list; the final user state; and an exception only when the
   * parser raised one.
   */
  lemma ParseLaw(p: Parser, input: seq<char>, user: Value)
    ensures var o := Run(p, Initial(input, user)); var r := Parse(p, input, user);
      && (r.Failure? <==> o.status.Threw?)
      && (r.Failure? ==> r.error == o.status.exn)
      && (r.Success? ==>
            && (r.value.consumedInput <==> o.state.location > 0)
            && r.value.userState == o.state.user
            && (r.value.Parsed? <==> o.status == Succeeded)
            && (r.value.Parsed? ==> r.value.value == o.result)
            && (r.value.NotParsed? ==>
                  && r.value.error.expected == o.added
                  && r.value.error.errorOffset == o.state.error.errorLocation
                  && r.value.error.unexpected == o.state.error.unexpected
                  && r.value.error.eof == o.state.error.eof
                  && r.value.error.message == o.state.error.message))
  {
  }

  datatype ParseException = ParseException(message: string)

  /** `GetValueOrThrow`: the value of a successful result, else a ParseException with the rendered error. */
  function GetValueOrThrow(r: ParseResult, render: ParseError -> string): (v: Result<Value, ParseException>)
    ensures r.Parsed? ==> v == Success(r.value)
    ensures r.NotParsed? ==> v == Failure(ParseException(render(r.error)))
  {
    match r
    case Parsed(_, value, _) => Success(value)
    case NotParsed(_, error, _) => Failure(ParseException(render(error)))
  }

  /** What `ParseOrThrow` can raise: an exception from the parser itself, or the ParseException of a failed parse. */
  datatype Raised = FromParser(exn: Exception) | NotParsedError(e: ParseException)

  /** `ParseOrThrow`: parse, then take the value or throw. */
  function ParseOrThrow(p: Parser, input: seq<char>, user: Value, render: ParseError -> string): Result<Value, Raised>
  {
    match Parse(p, input, user)
    case Failure(exn) => Failure(FromParser(exn))
    case Success(r) =>
      match GetValueOrThrow(r, render)
      case Success(v) => Success(v)
      case Failure(e) => Failure(NotParsedError(e))
  }

  /**
   * `ParseOrThrow` returns a value exactly when the parser succeeds, and that value is the
   * parser's result; a failure throws the ParseException whose message renders the error.
   */
  lemma ParseOrThrowLaw(p: Parser, input: seq<char>, user: Value, render: ParseError -> string)
    ensures var o := Run(p, Initial(input, user)); var v := ParseOrThrow(p, input, user, render);
      && (v.Success? <==> o.status == Succeeded)
      && (v.Success? ==> v.value == o.result)
      && (o.status == Failed ==> v == Failure(NotParsedError(ParseException(render(ErrorFrom(o.state, o.added))))))
      && (o.status.Threw? ==> v == Failure(FromParser(o.status.exn)))
  {
  }

  /** `Parser.UserState` on empty input returns the user state it was given (the user-state tests). */
  lemma GetUserState(user: Value)
    ensures Parse(UserState, "", user) == Success(Parsed(false, user, user))
  {
    assert Run(UserState, Initial("", user)) == RunPrimitive(UserState, Initial("", user));
  }

  /** `Return(Unit).MapUserState((_, _) => b)` on empty input ends with user state `b`. */
  lemma MapUserStateReplaces(a: Value, b: Value)
    ensures Parse(MapUserState(Return(VUnit), (_, _) => b), "", a) == Success(Parsed(false, VUnit, b))
  {
    var s := Initial("", a);
    var q := MapUserState(Return(VUnit), (_, _) => b);
    assert Run(q, s) == RunPrimitive(q, s);
    assert Run(Return(VUnit), s) == RunPrimitive(Return(VUnit), s);
  }

  /**
   * `Fail(message)` at the top level: not parsed, nothing consumed, and the error lists only
   * Fail's own expected entry, since the list starts empty.
   */
  lemma FailReported(message: string, input: seq<char>, user: Value)
    ensures Parse(Fail(message), input, user)
      == Success(NotParsed(false, ParseError(None, false, [FailExpected], 0, Some(message)), user))
  {
    var s := Initial(input, user);
    assert Run(Fail(message), s) == RunPrimitive(Fail(message), s);
  }

  /**
   * A case-insensitive literal that matches only a prefix of the input fails after consuming
   * that prefix, so the result says input was consumed although the parse failed.
   */
  lemma ConsumedThoughFailed(user: Value)
    ensures Parse(CIString("let"), "lex", user)
      == Success(NotParsed(true, ParseError(Some('x'), false, [TokensExpected("let")], 2, None), user))
  {
    var s := Initial("lex", user);
    assert SameIgnoringCase('l', 'l') && SameIgnoringCase('e', 'e') && !SameIgnoringCase('x', 't');
    CIStringStopsAtMismatch("let", s, 2);
  }
}
