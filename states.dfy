/**
 * The parse state that every combinator runs against.
 *
 * The C# ParseState is not part of this model. What the combinators rely on is given here:
 * a cursor over an in-memory input, a stack of bookmarks, one error record and a user state.
 * `State` is that state as a value and the functions below are its operations. The class
 * `ParseState` is the mutable object the TryParse methods update; each of its methods is
 * proved to do what the function of the same name does to `Snapshot()`.
 */
module ParseStates {
  import opened Wrappers
  import opened Values

  /**
   * Expected<TToken>: what the parser was looking for. It is a label, a literal token
   * sequence, or neither (the default struct value).
   */
  datatype Expected = Expected(labelName: Option<string>, tokens: Option<seq<char>>)

  const DefaultExpected: Expected := Expected(None, None)

  function LabelExpected(name: string): Expected { Expected(Some(name), None) }

  function TokensExpected(tokens: seq<char>): Expected { Expected(None, Some(tokens)) }

  /** The error record: unexpected token, end-of-input flag, where, and an optional message. */
  datatype InternalError = InternalError(unexpected: Option<char>, eof: bool, errorLocation: nat, message: Option<string>)

  /** ParseError as handed to RecoverWith's handler and returned by a failed parse. */
  datatype ParseError = ParseError(unexpected: Option<char>, eof: bool, expected: seq<Expected>, errorOffset: nat, message: Option<string>)

  /** The exceptions a running parser can raise. */
  datatype Exception =
    | InvalidOperation(message: string)   // a repetition whose step consumed no input
    | NullReference                       // a recovery handler that returned null

  datatype State = State(input: seq<char>, location: nat, bookmarks: seq<nat>, error: InternalError, user: Value)

  /** The cursor and every bookmark lie within the input. */
  predicate ValidState(s: State)
  {
    && s.location <= |s.input|
    && forall i :: 0 <= i < |s.bookmarks| ==> s.bookmarks[i] <= |s.input|
  }

  function Initial(input: seq<char>, user: Value): (s: State)
    ensures ValidState(s) && s.location == 0 && s.bookmarks == []
  {
    State(input, 0, [], InternalError(None, false, 0, None), user)
  }

  function HasCurrent(s: State): bool { s.location < |s.input| }

  /** The current token, or nothing at the end of the input. */
  function CurrentToken(s: State): (t: Option<char>)
    ensures t.Some? <==> s.location < |s.input|
    ensures t.Some? ==> t.value == s.input[s.location]
  {
    if s.location < |s.input| then Some(s.input[s.location]) else None
  }

  /** The next `count` tokens, fewer when the input ends first. */
  function Span(s: State, count: nat): (span: seq<char>)
    requires ValidState(s)
    ensures |span| <= count && s.location + |span| <= |s.input|
    ensures |span| == count || s.location + |span| == |s.input|
    ensures span == s.input[s.location..s.location + |span|]
  {
    if s.location + count <= |s.input| then s.input[s.location..s.location + count]
    else s.input[s.location..]
  }

  function Advanced(s: State, count: nat): (r: State)
    requires ValidState(s) && s.location + count <= |s.input|
    ensures ValidState(r) && r.location == s.location + count
  {
    s.(location := s.location + count)
  }

  function Pushed(s: State): (r: State)
    requires ValidState(s)
    ensures ValidState(r) && r.bookmarks == s.bookmarks + [s.location] && r.location == s.location
  {
    s.(bookmarks := s.bookmarks + [s.location])
  }

  /** Forgets the most recent bookmark without moving. */
  function Popped(s: State): (r: State)
    requires ValidState(s) && |s.bookmarks| > 0
    ensures ValidState(r) && r.bookmarks == s.bookmarks[..|s.bookmarks| - 1] && r.location == s.location
  {
    s.(bookmarks := s.bookmarks[..|s.bookmarks| - 1])
  }

  /** Returns to the most recent bookmark and forgets it. */
  function Rewound(s: State): (r: State)
    requires ValidState(s) && |s.bookmarks| > 0
    ensures ValidState(r) && r.bookmarks == s.bookmarks[..|s.bookmarks| - 1]
    ensures r.location == s.bookmarks[|s.bookmarks| - 1]
  {
    s.(location := s.bookmarks[|s.bookmarks| - 1], bookmarks := s.bookmarks[..|s.bookmarks| - 1])
  }

  function WithError(s: State, e: InternalError): State
  {
    s.(error := e)
  }

  /** The error record combined with the expected entries collected for it. */
  function ErrorFrom(s: State, expecteds: seq<Expected>): (e: ParseError)
    ensures e.expected == expecteds && e.errorOffset == s.error.errorLocation
    ensures e.unexpected == s.error.unexpected && e.eof == s.error.eof && e.message == s.error.message
  {
    ParseError(s.error.unexpected, s.error.eof, expecteds, s.error.errorLocation, s.error.message)
  }

  class ParseState {
    const input: seq<char>
    var location: nat
    var bookmarks: seq<nat>
    var error: InternalError
    var userState: Value

    function Snapshot(): State
      reads this
    {
      State(input, location, bookmarks, error, userState)
    }

    predicate Valid()
      reads this
    {
      ValidState(Snapshot())
    }

    constructor (input: seq<char>, userState: Value)
      ensures Valid() && Snapshot() == Initial(input, userState)
    {
      this.input := input;
      location := 0;
      bookmarks := [];
      error := InternalError(None, false, 0, None);
      this.userState := userState;
    }

    function HasCurrent(): bool
      reads this
    {
      location < |input|
    }

    function Current(): char
      requires HasCurrent()
      reads this
    {
      input[location]
    }

    function GetError(): InternalError
      reads this
    {
      error
    }

    function ErrorLocation(): nat
      reads this
    {
      error.errorLocation
    }

    method LookAhead(count: nat) returns (span: seq<char>)
      requires Valid()
      ensures span == Span(Snapshot(), count)
    {
      if location + count <= |input| {
        span := input[location..location + count];
      } else {
        span := input[location..];
      }
    }

    method Advance(count: nat)
      requires Valid() && location + count <= |input|
      modifies this
      ensures Valid() && Snapshot() == Advanced(old(Snapshot()), count)
    {
      location := location + count;
    }

    method PushBookmark()
      requires Valid()
      modifies this
      ensures Valid() && Snapshot() == Pushed(old(Snapshot()))
    {
      bookmarks := bookmarks + [location];
    }

    method PopBookmark()
      requires Valid() && |bookmarks| > 0
      modifies this
      ensures Valid() && Snapshot() == Popped(old(Snapshot()))
    {
      bookmarks := bookmarks[..|bookmarks| - 1];
    }

    method Rewind()
      requires Valid() && |bookmarks| > 0
      modifies this
      ensures Valid() && Snapshot() == Rewound(old(Snapshot()))
    {
      location := bookmarks[|bookmarks| - 1];
      bookmarks := bookmarks[..|bookmarks| - 1];
    }

    method SetError(unexpected: Option<char>, eof: bool, errorLocation: nat, message: Option<string>)
      requires Valid()
      modifies this
      ensures Valid()
      ensures Snapshot() == WithError(old(Snapshot()), InternalError(unexpected, eof, errorLocation, message))
    {
      error := InternalError(unexpected, eof, errorLocation, message);
    }

    /** The overload of SetError that takes a whole error record, saved earlier with GetError. */
    method SetErrorRecord(e: InternalError)
      requires Valid()
      modifies this
      ensures Valid() && Snapshot() == WithError(old(Snapshot()), e)
    {
      error := e;
    }

    method SetUserState(user: Value)
      requires Valid()
      modifies this
      ensures Valid() && Snapshot() == old(Snapshot()).(user := user)
    {
      userState := user;
    }

    function BuildError(expecteds: seq<Expected>): ParseError
      reads this
    {
      ErrorFrom(Snapshot(), expecteds)
    }
  }
}
