/**
 * The public factories that build parsers: their null and range checks, and the derived
 * combinators written in terms of others (Or, Optional, Labelled, the Separated family,
 * Repeat, and the Assert and Fail overloads with default messages).
 *
 * A C# reference that may be null is an `Option`; a factory that throws an argument
 * exception returns `Failure`.
 */
module Combinators {
  import opened Wrappers
  import opened Values
  import opened ParseStates
  import opened Parsers

  /** ArgumentNullException and ArgumentOutOfRangeException, with the parameter they name. */
  datatype ArgumentError =
    | ArgumentNull(paramName: string)
    | ArgumentOutOfRange(paramName: string, message: string)

  const CountMessage: string := "Count must be non-negative"
  const DefaultAssertMessage: string := "Assertion failed"
  const DefaultFailMessage: string := "Failed"

  // ---------------------------------------------------------------------------------------
  // OneOf and Or

  /** The alternatives OneOfParser.Create keeps for one argument: a OneOf's own, or the parser itself. */
  function Spliced(p: Parser): seq<Parser>
  {
    if p.OneOf? then p.alts else [p]
  }

  /** Create's list: every argument spliced in, in order. */
  function Flatten(ps: seq<Parser>): seq<Parser>
  {
    if |ps| == 0 then [] else Flatten(ps[..|ps| - 1]) + Spliced(ps[|ps| - 1])
  }

  /** The arguments of a list known to hold no null. */
  function Unwrapped(ps: seq<Option<Parser>>): (r: seq<Parser>)
    requires forall i :: 0 <= i < |ps| ==> ps[i].Some?
    ensures |r| == |ps| && forall i :: 0 <= i < |ps| ==> r[i] == ps[i].value
  {
    if |ps| == 0 then [] else Unwrapped(ps[..|ps| - 1]) + [ps[|ps| - 1].value]
  }

  /** OneOfParser.Create: a null argument throws; otherwise one OneOf over the flattened list. */
  function Created(ps: seq<Option<Parser>>): Result<Parser, ArgumentError>
  {
    if exists i :: 0 <= i < |ps| && ps[i].None? then Failure(ArgumentNull("parsers"))
    else Success(OneOf(Flatten(Unwrapped(ps))))
  }

  /** OneOfParser.Create's loop, which copies the arguments into a list and splices nested OneOfs. */
  method Create(ps: seq<Option<Parser>>) returns (r: Result<Parser, ArgumentError>)
    ensures r == Created(ps)
  {
    var list: seq<Parser> := [];
    for i := 0 to |ps|
      invariant forall j :: 0 <= j < i ==> ps[j].Some?
      invariant list == Flatten(Unwrapped(ps[..i]))
    {
      match ps[i]
      case None =>
        return Failure(ArgumentNull("parsers"));
      case Some(p) =>
        assert Unwrapped(ps[..i + 1]) == Unwrapped(ps[..i]) + [p] by {
          assert ps[..i + 1][..i] == ps[..i];
        }
        if p.OneOf? {
          list := list + p.alts;
        } else {
          list := list + [p];
        }
    }
    assert ps[..|ps|] == ps;
    return Success(OneOf(list));
  }

  /** Parser.OneOf(params parsers): a null array throws, then Create. */
  function OneOfParsers(parsers: Option<seq<Option<Parser>>>): Result<Parser, ArgumentError>
  {
    if parsers.None? then Failure(ArgumentNull("parsers")) else Created(parsers.value)
  }

  /** `p.Or(q)`: a two-element OneOf. */
  function Or(p: Parser, q: Option<Parser>): Result<Parser, ArgumentError>
  {
    if q.None? then Failure(ArgumentNull("parser")) else OneOfParsers(Some([Some(p), q]))
  }

  /** The parser `p.Or(q)` builds when `q` is not null. */
  function Either(p: Parser, q: Parser): Parser
  {
    OneOf(Spliced(p) + Spliced(q))
  }

  function Just(v: Value): Value { VJust(v) }

  /** `p.Optional()`: `p.Select(Maybe.Just).Or(ReturnNothing)`. */
  function Optional(p: Parser): Parser
  {
    Either(Map1(Just, p), Return(VNothing))
  }

  // ---------------------------------------------------------------------------------------
  // Single-parser wrappers with a null check

  function TryOf(p: Option<Parser>): Result<Parser, ArgumentError>
  {
    if p.None? then Failure(ArgumentNull("parser")) else Success(Try(p.value))
  }

  function LookaheadOf(p: Option<Parser>): Result<Parser, ArgumentError>
  {
    if p.None? then Failure(ArgumentNull("parser")) else Success(Lookahead(p.value))
  }

  function NotOf(p: Option<Parser>): Result<Parser, ArgumentError>
  {
    if p.None? then Failure(ArgumentNull("parser")) else Success(Not(p.value))
  }

  /** `Assert(predicate, message)` with a message function. */
  function AssertWith(p: Parser, assertion: Option<Value -> bool>, message: Option<Value -> string>): Result<Parser, ArgumentError>
  {
    if assertion.None? then Failure(ArgumentNull("predicate"))
    else if message.None? then Failure(ArgumentNull("message"))
    else Success(Assert(p, assertion.value, message.value))
  }

  /** `Assert(predicate, message)` with a fixed message string. */
  function AssertMessage(p: Parser, assertion: Option<Value -> bool>, message: Option<string>): Result<Parser, ArgumentError>
  {
    if assertion.None? then Failure(ArgumentNull("predicate"))
    else if message.None? then Failure(ArgumentNull("message"))
    else AssertWith(p, assertion, Some(_ => message.value))
  }

  /** `Assert(predicate)`: the message defaults to "Assertion failed". */
  function AssertDefault(p: Parser, assertion: Option<Value -> bool>): Result<Parser, ArgumentError>
  {
    if assertion.None? then Failure(ArgumentNull("predicate"))
    else AssertMessage(p, assertion, Some(DefaultAssertMessage))
  }

  /** `Labelled(label)`: WithExpected over the one label. */
  function Labelled(p: Parser, name: Option<string>): Result<Parser, ArgumentError>
  {
    if name.None? then Failure(ArgumentNull("label")) else Success(WithExpected(p, [LabelExpected(name.value)]))
  }

  function RecoverWithOf(p: Parser, handler: Option<ParseError -> nat>, recoveries: seq<Parser>): Result<Parser, ArgumentError>
  {
    if handler.None? then Failure(ArgumentNull("errorHandler")) else Success(RecoverWith(p, handler.value, recoveries))
  }

  /** `Fail(message = "Failed")`. */
  function FailOf(message: Option<string>): Result<Parser, ArgumentError>
  {
    if message.None? then Failure(ArgumentNull("message")) else Success(Fail(message.value))
  }

  function MapUserStateOf(p: Parser, func: Option<(Value, Value) -> Value>): Result<Parser, ArgumentError>
  {
    if func.None? then Failure(ArgumentNull("func")) else Success(MapUserState(p, func.value))
  }

  function CIStringOf(str: Option<string>): Result<Parser, ArgumentError>
  {
    if str.None? then Failure(ArgumentNull("str")) else Success(CIString(str.value))
  }

  // ---------------------------------------------------------------------------------------
  // Separated lists

  function First(x: Value, y: Value): Value { x }

  function Second(x: Value, y: Value): Value { y }

  /** `a.Then(b)`: both in order, keeping the second result. */
  function Then(a: Parser, b: Parser): Parser { Map2(Second, a, b) }

  /** `a.Before(b)`: both in order, keeping the first result. */
  function Before(a: Parser, b: Parser): Parser { Map2(First, a, b) }

  /** ReturnEmptyEnumerable. */
  const ReturnEmpty: Parser := Return(VList([]))

  function SeparatedAtLeastOnceOf(p: Parser, separator: Option<Parser>): Result<Parser, ArgumentError>
  {
    if separator.None? then Failure(ArgumentNull("separator"))
    else Success(SeparatedAtLeastOnce(p, Then(separator.value, p)))
  }

  function Separated(p: Parser, separator: Option<Parser>): Result<Parser, ArgumentError>
  {
    if separator.None? then Failure(ArgumentNull("separator"))
    else Success(Either(SeparatedAtLeastOnce(p, Then(separator.value, p)), ReturnEmpty))
  }

  function SeparatedAndTerminated(p: Parser, separator: Option<Parser>): Result<Parser, ArgumentError>
  {
    if separator.None? then Failure(ArgumentNull("separator")) else Success(Many(Before(p, separator.value)))
  }

  function SeparatedAndTerminatedAtLeastOnce(p: Parser, separator: Option<Parser>): Result<Parser, ArgumentError>
  {
    if separator.None? then Failure(ArgumentNull("separator")) else Success(AtLeastOnce(Before(p, separator.value)))
  }

  function SeparatedAndOptionallyTerminated(p: Parser, separator: Option<Parser>): Result<Parser, ArgumentError>
  {
    if separator.None? then Failure(ArgumentNull("separator"))
    else Success(Either(SeparatedAndOptionallyTerminatedAtLeastOnce(p, separator.value), ReturnEmpty))
  }

  function SeparatedAndOptionallyTerminatedAtLeastOnceOf(p: Parser, separator: Option<Parser>): Result<Parser, ArgumentError>
  {
    if separator.None? then Failure(ArgumentNull("separator"))
    else Success(SeparatedAndOptionallyTerminatedAtLeastOnce(p, separator.value))
  }

  // ---------------------------------------------------------------------------------------
  // Repetition

  /** `Enumerable.Repeat(p, count)`. */
  function Copies(p: Parser, count: nat): (r: seq<Parser>)
    ensures |r| == count && forall i :: 0 <= i < count ==> r[i] == p
  {
    if count == 0 then [] else Copies(p, count - 1) + [p]
  }

  /** `RepeatString(count)` on a parser of characters; `count` is a C# int. */
  function RepeatStringOf(p: Option<Parser>, count: int): Result<Parser, ArgumentError>
  {
    if p.None? then Failure(ArgumentNull("parser"))
    else if count < 0 then Failure(ArgumentOutOfRange("count", CountMessage))
    else Success(RepeatString(p.value, count))
  }

  /** `Repeat(count)`: a Sequence of `count` copies. */
  function Repeat(p: Parser, count: int): Result<Parser, ArgumentError>
  {
    if count < 0 then Failure(ArgumentOutOfRange("count", CountMessage)) else Success(Sequence(Copies(p, count)))
  }
}
