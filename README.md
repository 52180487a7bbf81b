# Pidgin's parsing engine in Dafny

This project models the core of Pidgin, a parser-combinator library for C#. It covers four parts.

- **The combinators and their `TryParse` contracts.** These are `OneOf`/`Or`, `Try`, `Lookahead`, `Not`, `Assert`, `Labelled`/`WithExpected`, `RecoverWith`, `Return`, `Fail`, `End`, `CurrentOffset`, `Optional` and the user-state parsers. Each one runs against a mutable parse state with these parts:
  - a location in the input;
  - a stack of bookmarks;
  - one error record;
  - a user state.

  The caller owns a list of "expected" entries, and every combinator appends to that list.
- **The loop-based parsers.** These are the separated-list loops, `RepeatString`, the case-insensitive literal `CIString`, the whitespace skipper, and the integer parsers with their digit values and Horner fold. The loop of `SeparatedAtLeastOnce` has a no-progress guard in the source. The optionally terminated loop has none, so it goes on after an iteration that does not advance: it repeats forever when such a pass leaves the whole state unchanged, and it can end later with a result when the pass changed the user state. The model adds the same guard there, as the corrected behaviour recorded under Findings, and so throws in both cases.
- **The operator-precedence builder.** This is `ExpressionParser.Build` with its per-row `Build`, `Op`, `Flatten` and `Partial`. It also covers the `Operator` row constructors and the chainable prefix/postfix forms.
- **The top level.** This is `DoParse` with its result record, `GetValueOrThrow` and `ParseOrThrow`.

The model has two layers:

- `Parsers.Run(p, s)` is a reference semantics. It maps a parser node and a state value to an `Outcome`: succeeded, failed or threw; the result; the new state; and the entries appended to the caller's expected list.
- `Machine.TryParse` is the imperative interpreter over the `ParseStates.ParseState` class. It updates the location, bookmarks, error record and user state in place and threads the expected list. Every `TryParse*` method is proved to produce exactly the outcome `Run` gives. This covers its status, its result, the object's new state, and the caller's list being the old list followed by exactly the added entries.

The laws (`Laws`, `Numbers`, `Expressions`, `SeparatedLists`, `SumExpressions`, `TopLevel`) are proved about `Run`.

Other modelling choices:

- **Results.** Results live in one value domain (`Values.Value`). The closures that the expression builder passes around as results (`Func<T,T>`, `Func<T,T,T>`, `Partial<T>`) are represented as data (`UnFn`, `BinFn`, `Partial`). User operators build expression-tree nodes, so the shape of a parsed expression can be checked structurally.
- **Argument checks.** Factories that throw `ArgumentNullException` or `ArgumentOutOfRangeException` return a `Result` whose failure names the exception.
- **Exceptions while parsing.** The no-progress `InvalidOperationException`, and a `RecoverWith` handler that returns null, appear as the status `Threw`.
- **Error handlers.** A `RecoverWith` handler is a function from the error to a position in a fixed list of recovery parsers; a position past the list stands for a handler returning null.
- **Inputs.** Inputs are sequences of `char`. The start state is `ParseStates.Initial`.

## Model

| member | source | states |
|---|---|---|
| ParseStates.CurrentToken | Pidgin/Parser.End.cs:18-20 | the current token is present exactly when the location is before the end of input, and it is the input at the location |
| ParseStates.Span | Pidgin/Parser.String.cs:84-86 | the look-ahead span is the input from the location, `count` long or cut short exactly at the end of input |
| ParseStates.Pushed | Pidgin/Parser.Try.cs:50 | pushing a bookmark records the current location on top of the stack and leaves the location alone |
| ParseStates.Popped | Pidgin/Parser.Lookahead.cs:44 | popping a bookmark removes the top entry and leaves the location alone |
| ParseStates.Rewound | Pidgin/Parser.Try.cs:54 | rewinding removes the top bookmark and moves the location back to it |
| ParseStates.ErrorFrom | Pidgin/ParserExtensions.cs:141 | the built error carries exactly the collected expected entries and the error record's token, end-of-input flag, location and message |
| ParseStates.ParseState.constructor | Pidgin/ParserExtensions.cs:131 | a new state is at location 0 with no bookmarks over the given input and user state |
| ParseStates.ParseState.LookAhead | Pidgin/Parser.String.cs:84 | the method returns the span function's value for the current state |
| ParseStates.ParseState.Advance | Pidgin/Parser.String.cs:93 | advancing moves the location forward by exactly `count` and changes nothing else |
| ParseStates.ParseState.PushBookmark | Pidgin/Parser.Try.cs:50 | the object's new state is the pushed state |
| ParseStates.ParseState.PopBookmark | Pidgin/Parser.Try.cs:59 | the object's new state is the popped state |
| ParseStates.ParseState.Rewind | Pidgin/Parser.Try.cs:54 | the object's new state is the rewound state |
| ParseStates.ParseState.SetError | Pidgin/Parser.Fail.cs:38 | only the error record changes, to exactly the four given fields |
| ParseStates.ParseState.SetErrorRecord | Pidgin/Parser.OneOf.cs:235 | restoring a saved error record changes only the error record, to exactly the saved one |
| ParseStates.ParseState.SetUserState | Pidgin/Parser.UserState.cs:90 | only the user state changes |
| Text.ToLowerInvariant | Pidgin/Parser.String.cs:88 | upper-case ASCII letters map to their lower-case letter and every other character to itself |
| Text.MismatchFrom | Pidgin/Parser.String.cs:86-92 | the search returns -1 when every character from `k` matches ignoring case; otherwise it returns the first index from `k` that does not match |
| Text.WhitespaceEnd | Pidgin/Parser.Whitespace.cs:73-125 | the end of the whitespace run: every character skipped is whitespace, and the one after it is not (or the input ends) |
| Text.WhitespaceEndUnique | Pidgin/Parser.Whitespace.cs:84-87 | any position that ends a run of whitespace from `k` is the position the skipper stops at |
| Parsers.Run | Pidgin/Parser.Try.cs:47-61 | every parser keeps the state valid over the same input and returns the default result when it does not succeed; one that returns normally never moves the location back past its start and leaves the bookmark stack as it found it |
| Parsers.RunToken | Pidgin/Parser.End.cs:18-21 | the leaf token parser succeeds exactly when the current token is accepted, consuming it; otherwise it fails in place with an error at the current token |
| Parsers.RunMap1 | Pidgin/Parser.Optional.cs:23 | a mapped parser has the inner parser's status, state and expected entries, and on success the function of the inner result |
| Parsers.RunMap2 | Pidgin/Expression/ExpressionParser.cs:213-217 | the pair map stops at a first parser that does not succeed; it succeeds exactly when both succeed, with the function of the two results |
| Parsers.RunAtLeastOnce | Pidgin/Expression/ExpressionParser.cs:175 | a first failure is the whole failure; a success returns at least one item |
| Parsers.RestLoop | Pidgin/Parser.Separated.cs:137-165 | the repetition loop returns the items collected so far followed by the new ones and forwards no expected entries on success; a step that succeeds without advancing throws the no-progress exception, a step failing in place ends the list with the items so far, and a step failing after consuming is the loop's outcome |
| Parsers.RunTry | Pidgin/Parser.Try.cs:47-61 | `Try` has the inner parser's status, result, expected entries, error and user state; on failure it restores the starting location, and on success it keeps the inner parser's location |
| Parsers.RunLookahead | Pidgin/Parser.Lookahead.cs:34-46 | `Lookahead` has the inner parser's status, result, expected entries and error; on success the location is unchanged, and on failure it is the inner parser's |
| Parsers.RunNot | Pidgin/Parser.Not.cs:56-78 | `Not` succeeds with `Unit` exactly when the inner parser fails and forwards no expected entries; it keeps the inner parser's location; on inner success it sets the error at the start location with the token there and no end-of-input flag |
| Parsers.RunAssert | Pidgin/Parser.Assert.cs:77-108 | an inner failure propagates without its expected entries; a success satisfying the predicate is unchanged; otherwise it fails where the inner parser stopped, with the message of the result and "result satisfying assertion" appended to the inner entries |
| Parsers.RunWithExpected | Pidgin/Parser.Labelled.cs:41-55 | the inner parser's status, result and state, forwarding exactly the configured entries on failure and none on success |
| Parsers.RunRecoverWith | Pidgin/Parser.RecoverWith.cs:35-49 | on success it discards the inner entries; an exception from the inner parser passes through; on failure it runs the recovery chosen from the error built over the inner entries, from where the inner parser stopped, and takes that outcome; a null recovery throws `NullReferenceException` |
| Parsers.RunReturn | Pidgin/Parser.Return.cs:24-28 | `Return` succeeds with the stored value and leaves the state and expected list untouched |
| Parsers.RunFail | Pidgin/Parser.Fail.cs:36-42 | `Fail` fails in place with the error at the current location, no token, no end-of-input flag and the message; it adds one entry with an empty token sequence |
| Parsers.RunEnd | Pidgin/Parser.End.cs:16-27 | `End` succeeds exactly at the end of input and never moves; on failure the error records the current token at the current location, and one default entry is added |
| Parsers.RunCurrentOffset | Pidgin/Parser.CurrentOffset.cs:15-19 | the result is the location, and the state and expected list are untouched |
| Parsers.RunUserState | Pidgin/Parser.UserState.cs:40-44 | the result is the user state, and the state and expected list are untouched |
| Parsers.RunWithUserState | Pidgin/Parser.UserState.cs:56-67 | it succeeds exactly when the inner parser does, pairing the result with the user state the inner parser left |
| Parsers.RunMapUserState | Pidgin/Parser.UserState.cs:81-92 | the inner status, result and entries are kept; the new user state is `func(result, state)` on success and whatever the inner parser left on failure |
| Parsers.RunSeparatedAtLeastOnce | Pidgin/Parser.Separated.cs:119-166 | a first item that does not succeed is the whole outcome; a success starts with that item's result |
| Parsers.RunSeparatedAndOptionallyTerminated | Pidgin/Parser.Separated.cs:180-190 | a first item that does not succeed is the whole outcome; a success starts with that item's result |
| Parsers.OptionallyTerminatedLoop | Pidgin/Parser.Separated.cs:190-239 | the separator-then-item loop returns the items so far followed by the new ones, with no expected entries on success; it throws on an iteration that does not advance, where the C# loop has no progress check and goes on (see Findings) |
| Parsers.AfterSeparator | Pidgin/Parser.Separated.cs:217-238 | the item half of an iteration keeps the state valid from the iteration's start and extends the items on success; `SeparatedLists.NoProgressThrows` states that an iteration that does not advance throws, where the C# loop has no progress check and goes on (see Findings) |
| Parsers.RepeatLoop | Pidgin/Parser.Repeat.cs:70-88 | a successful `RepeatString` returns the characters so far followed by one per remaining run |
| Parsers.RunCIString | Pidgin/Parser.String.cs:82-120 | `CIString` succeeds exactly when the next characters match the literal ignoring case; it then advances by the literal's length and returns the input text; on failure it adds the literal as the one expected entry, with the error where it stopped |
| Parsers.RunSkipWhitespaces | Pidgin/Parser.Whitespace.cs:65-127 | it always succeeds with `Unit` and adds nothing; only the location changes; every skipped character is whitespace, and the input ends or the next character is not whitespace |
| Combinators.Create | Pidgin/Parser.OneOf.cs:243-266 | the loop building the alternatives computes the flattening function: nested `OneOf`s spliced in order, or `ArgumentNullException` on a null alternative |
| Combinators.Copies | Pidgin/Parser.Repeat.cs:55 | `count` copies of the parser |
| Laws.Attempts | Pidgin/Parser.OneOf.cs:202-215 | the alternatives `OneOf` tries before one decides all failed without moving, from the start state |
| Laws.AttemptsStep | Pidgin/Parser.OneOf.cs:215-226 | a failure in place is the first attempt, and its entries come first in the collected list |
| Laws.OneOfLoopDecides | Pidgin/Parser.OneOf.cs:204-223 | once an alternative succeeds, throws or fails after consuming, the loop's outcome is that alternative's |
| Laws.OneOfLoopStep | Pidgin/Parser.OneOf.cs:215-231 | a failure in place moves to the next alternative, keeping the error lying further on and appending the entries |
| Laws.OneOfLoopAllFail | Pidgin/Parser.OneOf.cs:234-240 | when every remaining alternative fails in place, the loop fails at the start with all their entries |
| Laws.OneOfLoopPicks | Pidgin/Parser.OneOf.cs:229-235 | the error after all failures is the choice made by `Pick` over the alternatives' errors |
| Laws.PickIsFurthest | Pidgin/Parser.OneOf.cs:229-233 | no alternative's error lies further on than the chosen one |
| Laws.PickIsEarliest | Pidgin/Parser.OneOf.cs:229-233 | the chosen error is the earliest of those lying furthest on |
| Laws.RunOneOfIsLoop | Pidgin/Parser.OneOf.cs:188-200 | `OneOf` starts its loop with `firstTime` set, the no-arguments error and an empty child list |
| Laws.OneOfAllFail | Pidgin/Parser.OneOf.cs:200-240 | when all alternatives fail in place, `OneOf` fails at the start location with every alternative's entries in order; the error lies furthest on (the earliest on a tie); with no alternatives the error is "OneOf had no arguments" |
| Laws.OneOfDecides | Pidgin/Parser.OneOf.cs:200-223 | otherwise the first alternative that does not fail in place decides; later ones never run; on success nothing is forwarded, and on a consuming failure exactly its entries are |
| Laws.AttemptsStop | Pidgin/Parser.OneOf.cs:215-223 | the deciding alternative runs at the start location and, when it fails, it has consumed input |
| Laws.OneOfStopsEarly | Pidgin/Parser.OneOf.cs:204-223 | alternatives appended after a deciding one are never run |
| Laws.OrIsOneOf | Pidgin/Parser.Or.cs:13-19 | `p.Or(q)` is the two-element `OneOf` (flattened), and a null `q` throws `ArgumentNullException` |
| Laws.OrStopsAtFirst | Pidgin/Parser.Or.cs:19 | `q` never runs when `p` succeeds, throws or fails after consuming |
| Laws.OrFallsThrough | Pidgin/Parser.OneOf.cs:215-240 | when `p` fails in place, `q` runs there; if both fail in place, the error lying further on is kept (`p`'s on a tie) and both lists of entries are forwarded in order |
| Laws.OneOfLoopLast | Pidgin/Parser.OneOf.cs:215-240 | the last iteration of the loop: it fails with the merged error and entries, or decides |
| Laws.OptionalLaw | Pidgin/Parser.Optional.cs:6-23 | `Optional` gives `Just` of a success; `Nothing` in place on a failure without consuming; the inner failure after consuming |
| Laws.FlattenAppend | Pidgin/Parser.OneOf.cs:251-263 | the flattening of a concatenation is the concatenation of the flattenings |
| Laws.FlattenOne | Pidgin/Parser.OneOf.cs:257-264 | a single `OneOf` is replaced by its alternatives and any other parser is kept |
| Laws.FlattenIsFlat | Pidgin/Parser.OneOf.cs:257-260 | flattening flat parsers leaves no nested `OneOf` |
| Laws.CreatedIsFlat | Pidgin/Parser.OneOf.cs:243-266 | `Create` over flat parsers builds a flat `OneOf` |
| Laws.OrChain | Pidgin/Parser.Or.cs:19 | `a.Or(b).Or(c)` is one flat three-alternative `OneOf` |
| Laws.LabelledLaw | Pidgin/Parser.Labelled.cs:19-55 | `Labelled` is `WithExpected` of one label and throws on a null label; the outcome is the inner one with only the label forwarded on failure |
| Laws.SeparatedEmpty | Pidgin/Parser.Separated.cs:22-23 | `Separated` returns the empty list when the first item fails without consuming |
| Laws.SeparatedNonEmpty | Pidgin/Parser.Separated.cs:22-23 | otherwise `Separated` has the outcome of `SeparatedAtLeastOnce` |
| Laws.RestLoopStops | Pidgin/Parser.Separated.cs:141-165 | a successful step that did not advance throws the no-progress exception; a step failing in place ends the list successfully; a step failing after consuming fails the list with its entries |
| Laws.RestLoopAdvances | Pidgin/Parser.Separated.cs:141-152 | a successful step that advanced appends its item, and the loop goes on from there |
| Laws.RestLoopFailsConsuming | Pidgin/Parser.Separated.cs:156-165 | the loop fails only after input was consumed |
| Laws.RepeatLoopIsSequence | Pidgin/Parser.Repeat.cs:74-87 | the `RepeatString` loop agrees with `Sequence` over `count` copies, with the characters of its results as the string |
| Laws.RepeatStringIsRepeat | Pidgin/Parser.Repeat.cs:27-55 | a null parser and a negative count throw; `RepeatString(count)` agrees with `Repeat(count)` and returns `count` characters; with count 0 it succeeds with "" in place |
| Laws.Map2Law | Pidgin/Expression/ExpressionParser.cs:220-225 | a pair map runs the second parser where the first stopped and forwards both lists of entries |
| Laws.Map3Law | Pidgin/Expression/ExpressionParser.cs:166-171 | a triple map runs its three parsers in turn, stopping at the first that does not succeed, and forwards all entries in order |
| Laws.MismatchFromFirst | Pidgin/Parser.String.cs:86-92 | the mismatch search returns the first index that differs ignoring case |
| Laws.CIStringStopsAtMismatch | Pidgin/Parser.String.cs:86-103 | at the first mismatch `i`, `CIString` consumes the `i` matching characters and fails with that token, no end-of-input flag, and the literal expected |
| Laws.CIStringRunsOut | Pidgin/Parser.String.cs:106-114 | when the input ends inside a matching prefix, `CIString` advances to the end and fails with no token and the end-of-input flag |
| Laws.NullArgumentsThrow | Pidgin/Parser.Separated.cs:18-103 | every factory given a null argument throws `ArgumentNullException` naming that argument |
| Laws.AssertDefaultMessage | Pidgin/Parser.Assert.cs:15-19 | the assertion without a message fails with "Assertion failed" |
| Machine.TryParse | Pidgin/Parser.Try.cs:47-61 | running any parser on the mutable state gives the `Run` outcome: status, result and new state, with the caller's list extended by exactly the added entries |
| Machine.TryParseToken | Pidgin/Parser.End.cs:16-27 | the imperative token parser matches `RunToken` |
| Machine.TryParseMap1 | Pidgin/Parser.Optional.cs:23 | the imperative map matches `RunMap1` |
| Machine.TryParseMap2 | Pidgin/Expression/ExpressionParser.cs:220-225 | the imperative pair map matches `RunMap2` |
| Machine.TryParseSequence | Pidgin/Parser.Repeat.cs:55 | the loop over the parsers of a sequence matches `SequenceLoop` |
| Machine.TryParseAtLeastOnce | Pidgin/Expression/ExpressionParser.cs:175 | the imperative repetition matches `RunAtLeastOnce` |
| Machine.Rest | Pidgin/Parser.Separated.cs:137-165 | the loop with `lastStartingLoc` and the no-progress guard matches `RestLoop` |
| Machine.TryParseOneOf | Pidgin/Parser.OneOf.cs:188-241 | the `foreach` loop over the alternatives, with `firstTime`, `err` and the child lists, matches `RunOneOf` |
| Machine.TryParseTry | Pidgin/Parser.Try.cs:47-61 | push, run, then rewind or pop: matches `RunTry` |
| Machine.TryParseLookahead | Pidgin/Parser.Lookahead.cs:34-46 | push, run, then rewind on success or pop on failure: matches `RunLookahead` |
| Machine.TryParseNot | Pidgin/Parser.Not.cs:56-78 | matches `RunNot` |
| Machine.TryParseAssert | Pidgin/Parser.Assert.cs:77-108 | matches `RunAssert` |
| Machine.TryParseWithExpected | Pidgin/Parser.Labelled.cs:41-55 | matches `RunWithExpected` |
| Machine.TryParseRecoverWith | Pidgin/Parser.RecoverWith.cs:35-49 | matches `RunRecoverWith` |
| Machine.TryParseFail | Pidgin/Parser.Fail.cs:36-42 | matches `RunFail` |
| Machine.TryParseEnd | Pidgin/Parser.End.cs:16-27 | matches `RunEnd` |
| Machine.TryParseWithUserState | Pidgin/Parser.UserState.cs:56-67 | matches `RunWithUserState` |
| Machine.TryParseMapUserState | Pidgin/Parser.UserState.cs:81-92 | matches `RunMapUserState`, assigning the user state only on success |
| Machine.TryParseSeparatedAtLeastOnce | Pidgin/Parser.Separated.cs:119-166 | matches `RunSeparatedAtLeastOnce` |
| Machine.TryParseSeparatedAndOptionallyTerminated | Pidgin/Parser.Separated.cs:180-190 | matches `RunSeparatedAndOptionallyTerminated`, which throws on an iteration that does not advance where the C# loop has no progress check and goes on (see Findings) |
| Machine.OptionallyTerminatedRest | Pidgin/Parser.Separated.cs:190-239 | the `while` loop matches `OptionallyTerminatedLoop`, which throws on an iteration that does not advance where the C# loop has no progress check and goes on (see Findings) |
| Machine.SeparatorStep | Pidgin/Parser.Separated.cs:194-215 | the separator half of an iteration either ends the loop with its outcome or continues where `AfterSeparator` does |
| Machine.ItemStep | Pidgin/Parser.Separated.cs:217-238 | the item half either ends the loop with its outcome or continues where the loop continues, strictly past the iteration's start; it throws on an iteration that does not advance, where the C# loop has no progress check and goes on (see Findings) |
| Machine.SeparatorSucceeded | Pidgin/Parser.Separated.cs:194-215 | after a successful separator the loop is its item half from the separator's end |
| Machine.ItemSucceeded | Pidgin/Parser.Separated.cs:217-238 | a successful item that advanced past the iteration's start is collected, and the loop goes on |
| Machine.TryParseRepeatString | Pidgin/Parser.Repeat.cs:70-88 | the `for` loop matches `RepeatLoop` |
| Machine.TryParseCIString | Pidgin/Parser.String.cs:82-120 | the mismatch search, then the advance and the error: matches `RunCIString` |
| Machine.TryParseSkipWhitespaces | Pidgin/Parser.Whitespace.cs:65-127 | the nested chunk loops with the four-space fast path match `RunSkipWhitespaces` |
| Machine.ScanGroups | Pidgin/Parser.Whitespace.cs:67-125 | scanning four-space groups, then single characters, stops exactly at the end of the whitespace run, or leaves the state untouched for the next chunk |
| Numbers.DigitValueInRange | Pidgin/Parser.Number.cs:144-182 | an accepted digit's value is below the base |
| Numbers.DigitRoundTrip | Pidgin/Parser.Number.cs:144-182 | every value below the base has an accepted digit with that value, and an accepted digit is that digit (or its lower-case form) |
| Numbers.Wrap | Pidgin/Parser.Number.cs:87 | two's-complement wrap-around: the result is in the width's range and congruent to the input |
| Numbers.WrapInRange | Pidgin/Parser.Number.cs:87 | a value already in range is unchanged |
| Numbers.WrapCongruent | Pidgin/Parser.Number.cs:85-88 | congruent values wrap to the same result |
| Numbers.WrapMultiplyAdd | Pidgin/Parser.Number.cs:85-88 | wrapping after every step of `r * base + d` equals wrapping once at the end |
| Numbers.PositionalAppend | Pidgin/Parser.Number.cs:85-88 | one more digit multiplies the positional value by the base and adds the digit |
| Numbers.HornerIsPositional | Pidgin/Parser.Number.cs:79-90 | the Horner fold from 0 is the positional value of the digits |
| Numbers.ChainedIsWrappedHorner | Pidgin/Parser.Number.cs:79-90 | the fold with wrap-around after each step is the wrapped Horner value |
| Numbers.HornerBound | Pidgin/Parser.Number.cs:85-88 | `n` digits below the base give a value below `base^n` |
| Numbers.Chainer.constructor | Pidgin/Parser.Number.cs:79-83 | a new chainer holds 0 |
| Numbers.Chainer.Apply | Pidgin/Parser.Number.cs:85-88 | one step sets the result to `result * base + value`, wrapped at the width |
| Numbers.ChainDigits | Pidgin/Parser.Number.cs:69-72 | feeding digits into a chainer gives the wrapped Horner value |
| Numbers.BaseLabels | Pidgin/Parser.Number.cs:56-72 | the labels are "base-10 number", "base-8 number" and "base-16 number" |
| Numbers.DigitsEnd | Pidgin/Parser.Number.cs:69-72 | the end of the run of accepted digits |
| Numbers.DigitCharLaw | Pidgin/Parser.Number.cs:144-154 | the digit parser consumes one accepted digit and returns its value, and otherwise fails in place |
| Numbers.DigitsRun | Pidgin/Parser.Number.cs:69-72 | repeating the digit parser collects the values of the whole run of digits and stops at its end |
| Numbers.DigitsAtLeastOnce | Pidgin/Parser.Number.cs:69-72 | at least one digit: the run's values, or failure in place when there is none |
| Numbers.UnsignedLaw | Pidgin/Parser.Number.cs:69-72 | `UnsignedInt`/`UnsignedLong` return the wrapped positional value of the run of digits, and fail in place with the base label when there is no digit |
| Numbers.CharReturnsLaw | Pidgin/Parser.Number.cs:11-14 | `Char(c).ThenReturn(k)` consumes `c` and returns `k`, and otherwise fails in place expecting `c` |
| Numbers.SignLaw | Pidgin/Parser.Number.cs:11-14 | `Sign` gives 1 on '+', -1 on '-', each consumed, and 1 in place otherwise; it never fails and forwards nothing |
| Numbers.SignedLaw | Pidgin/Parser.Number.cs:56-61 | `Int`/`Long` return the wrapped `sign * digits`; with no digit after the sign they fail there with the base label |
| Numbers.SignedSteps | Pidgin/Parser.Number.cs:56-61 | `Int` is `Sign` followed by `UnsignedInt`, multiplying, and labelled |
| Numbers.SignTimesWrapped | Pidgin/Parser.Number.cs:58 | multiplying the sign after wrapping the digits equals wrapping the product |
| Expressions.FlattenTable | Pidgin/Expression/ExpressionParser.cs:227-228 | each group of rows becomes one row, in order |
| Expressions.AndMonoid | Pidgin/Expression/ExpressionParser.cs:228 | `And` is associative with `Empty` as identity |
| Expressions.MergedAppend | Pidgin/Expression/ExpressionParser.cs:228 | merging a concatenation of groups is `And` of the merges |
| Expressions.MergedOne | Pidgin/Expression/ExpressionParser.cs:228 | merging a single row gives that row |
| Expressions.SingleOperatorRows | Pidgin/Expression/Operator.cs:77-148 | each single-operator constructor fills its own slot and leaves the other four empty; a null operator parser throws |
| Expressions.OperatorDispatch | Pidgin/Expression/Operator.cs:20-68 | `Binary` and `Unary` dispatch on the operator type, and any other type throws `ArgumentOutOfRangeException` |
| Expressions.PrefixChainNests | Pidgin/Expression/Operator.cs:165-180 | the prefix chain applies the parsed operators last to first, so the first parsed is outermost |
| Expressions.PostfixChainNests | Pidgin/Expression/Operator.cs:214-229 | the postfix chain applies them first to last, so the first parsed is innermost |
| Expressions.ApplyPrefixChain | Pidgin/Expression/Operator.cs:170-177 | the downward `for` loop computes the outermost-first nesting |
| Expressions.ApplyPostfixChain | Pidgin/Expression/Operator.cs:219-226 | the upward `for` loop computes the innermost-first nesting |
| Expressions.ChainableLaw | Pidgin/Expression/Operator.cs:165-229 | both chainable rows hold one mapped `AtLeastOnce` of the `OneOf`; a success has at least one operator, and its function nests the operators in the two opposite orders |
| Expressions.LeftChainNests | Pidgin/Expression/ExpressionParser.cs:174-186 | the left-associative function gives `((z f1 y1) f2 y2) ...` |
| Expressions.ApplyLeftChain | Pidgin/Expression/ExpressionParser.cs:178-183 | the `for` loop updating `z` computes the left nesting |
| Expressions.ReassociatedNests | Pidgin/Expression/ExpressionParser.cs:187-204 | the reassociated partial applied to `z` gives `z f1 (y1 f2 (y2 ...))` |
| Expressions.Reassociate | Pidgin/Expression/ExpressionParser.cs:193-201 | the backward loop building the partial gives the right nesting for every `z` |
| Expressions.BuildAppend | Pidgin/Expression/ExpressionParser.cs:20-23 | building over two tables is building over the second from the first's parser (a left fold) |
| Expressions.FirstRowInnermost | Pidgin/Expression/ExpressionParser.cs:20-23 | the first row wraps the term directly, so it binds tightest |
| Expressions.UnaryDefaultsToIdentity | Pidgin/Expression/ExpressionParser.cs:163-171 | when no prefix or postfix operator matches, the slot succeeds in place with the identity |
| Expressions.NoUnaryIsTerm | Pidgin/Expression/ExpressionParser.cs:166-171 | with no unary operators, the wrapped term behaves as the term |
| Expressions.PrefixedTermLaw | Pidgin/Expression/ExpressionParser.cs:166-171 | the wrapped term's value is `post(pre(tm))` |
| Expressions.InfixLaw | Pidgin/Expression/ExpressionParser.cs:206-211 | infix forms are tried non-associative, left, right, then the identity |
| Expressions.EmptySlotFails | Pidgin/Expression/ExpressionParser.cs:173-204 | an empty infix slot fails in place with the no-arguments error |
| Expressions.InfixNApplies | Pidgin/Expression/ExpressionParser.cs:173 | non-associative infix applies exactly one `f(z, y)` |
| Expressions.InfixLFolds | Pidgin/Expression/ExpressionParser.cs:174-186 | left-associative infix folds the parsed pairs left to right |
| Expressions.InfixRNests | Pidgin/Expression/ExpressionParser.cs:187-204 | right-associative infix nests the parsed pairs to the right |
| Expressions.RowLaw | Pidgin/Expression/ExpressionParser.cs:161-218 | a row parses the wrapped term, then the infix part from there, and applies the infix function to the term |
| Expressions.OneOperatorStep | Pidgin/Expression/ExpressionParser.cs:220-225 | an operator pair is the operator followed by the wrapped term, building the partial |
| SeparatedLists.SeparatorFailsConsuming | Pidgin/Parser.Separated.cs:197-211 | a separator failing after consuming fails the list with its outcome |
| SeparatedLists.SeparatorEndsList | Pidgin/Parser.Separated.cs:197-211 | a separator failing in place ends the list with the items so far |
| SeparatedLists.TerminatorConsumed | Pidgin/Parser.Separated.cs:217-238 | a separator followed by an item failing in place ends the list successfully, the separator consumed |
| SeparatedLists.ItemEndsList | Pidgin/Parser.Separated.cs:221-232 | an item failing in place ends the list |
| SeparatedLists.ItemFailsConsuming | Pidgin/Parser.Separated.cs:221-234 | an item failing after consuming fails the list with its outcome |
| SeparatedLists.IterationAdvances | Pidgin/Parser.Separated.cs:235-237 | an iteration that advanced collects the item and goes on |
| SeparatedLists.NoProgressThrows | Pidgin/Parser.Separated.cs:141-150 | an iteration that did not advance throws the no-progress exception, as the other repetition does |
| SeparatedLists.AsWrittenPass | Pidgin/Parser.Separated.cs:190-238 | one pass of the loop as written: it ends with an outcome or is ready for another pass over the same input |
| SeparatedLists.AsWrittenAgrees | Pidgin/Parser.Separated.cs:190-238 | a pass as written agrees with the model's loop wherever it stopped or advanced |
| SeparatedLists.AsWrittenSeparatorAgrees | Pidgin/Parser.Separated.cs:194-215 | the separator half as written agrees with the model's loop |
| SeparatedLists.AsWrittenItemAgrees | Pidgin/Parser.Separated.cs:217-238 | the item half as written agrees with the model's loop |
| SeparatedLists.AsWrittenLoopsForever | Pidgin/Parser.Separated.cs:190-238 | with `Return(Unit)` as separator and `Return(0)` as item, the loop as written returns to the state it started in after any number of passes |
| SeparatedLists.GuardedLoopThrows | Pidgin/Parser.Separated.cs:141-150 | on the same parsers the model's loop throws the no-progress exception |
| SumExpressions.PlusLaw | Pidgin.Bench/ExpressionBench.cs:27 | `Char('+').Then(Return(add))` consumes a '+' and returns the addition, and otherwise fails in place |
| SumExpressions.NumLaw | Pidgin/Parser.Number.cs:21 | `Num` on one digit followed by '+' or the end returns the digit's value |
| SumExpressions.SumRest | Pidgin/Parser.Separated.cs:137-165 | the operator pairs after the first term are collected up to the end of the text |
| SumExpressions.SumOperators | Pidgin/Expression/ExpressionParser.cs:174-175 | `AtLeastOnce` over the operator pairs returns one partial per remaining digit |
| SumExpressions.LeftInfix | Pidgin/Expression/ExpressionParser.cs:174-186 | the left-associative infix part of a sum consumes the rest of the text and nests left |
| SumExpressions.RightInfix | Pidgin/Expression/ExpressionParser.cs:187-204 | the right-associative infix part consumes the rest of the text and nests right |
| SumExpressions.LeftRowSums | Pidgin/Expression/ExpressionParser.cs:161-218 | an `InfixL` row over digit sums parses the whole text into the left-nested tree |
| SumExpressions.RightRowSums | Pidgin/Expression/ExpressionParser.cs:161-218 | an `InfixR` row parses the whole text into the right-nested tree |
| SumExpressions.LeftSumLaw | Pidgin.Bench/ExpressionBench.cs:24-28 | the bench's left-associative parser reads `d0+d1+...` into `((d0+d1)+...)` |
| SumExpressions.RightSumLaw | Pidgin.Bench/ExpressionBench.cs:29-33 | the right-associative parser reads it into `d0+(d1+...)` |
| SumExpressions.LeftNestedAdds | Pidgin/Expression/ExpressionParser.cs:174-186 | the left nesting evaluates to the sum |
| SumExpressions.RightNestedAdds | Pidgin/Expression/ExpressionParser.cs:187-204 | the right nesting evaluates to the sum |
| SumExpressions.LeftSumAdds | Pidgin.Bench/ExpressionBench.cs:24-28 | the left-associative parse of a digit sum evaluates to the sum of the digits |
| SumExpressions.RightSumAdds | Pidgin.Bench/ExpressionBench.cs:29-33 | the right-associative parse evaluates to the same sum |
| SumExpressions.LeftOneTwoThree | Pidgin.Bench/ExpressionBench.cs:24-28 | "1+2+3" parses left-associatively as `(1+2)+3` |
| SumExpressions.RightOneTwoThree | Pidgin.Bench/ExpressionBench.cs:29-33 | "1+2+3" parses right-associatively as `1+(2+3)` |
| SumExpressions.LeftBench | Pidgin.Bench/ExpressionBench.cs:59-62 | `ParseOrThrow` of the left parser on "1+1" returns `1+1` |
| SumExpressions.RightBench | Pidgin.Bench/ExpressionBench.cs:64-67 | the same for the right parser |
| TopLevel.DoParse | Pidgin/ParserExtensions.cs:134-147 | one run against the state with an empty list: input consumed exactly when the location moved past the start; the value on success; the error built over the collected entries on failure; the final user state; exceptions pass through |
| TopLevel.DoParseUnit | Pidgin/ParserExtensions.cs:373-386 | the same report with the user state always `Unit` |
| TopLevel.ParseInput | Pidgin/ParserExtensions.cs:129-133 | a new state over the whole input, then `DoParse` |
| TopLevel.ParseInputUnit | Pidgin/ParserExtensions.cs:368-386 | the `Unit` overload reports `Unit` whatever the parser did to the user state, and otherwise the same report as the run from a new state: the same value or error, the same consumed flag, and on an exception exactly the exception the parser raised |
| TopLevel.ParseLaw | Pidgin/ParserExtensions.cs:136-141 | success exactly when the parser succeeds; consumed exactly when the final location is past 0, whatever the status; the error over exactly the entries added to the empty list |
| TopLevel.GetValueOrThrow | Pidgin/ParserExtensions.cs:258-259 | the value on success, and a `ParseException` with the rendered error otherwise |
| TopLevel.ParseOrThrowLaw | Pidgin/ParserExtensions.cs:159-160 | `ParseOrThrow` returns a value exactly when the parser succeeds, and throws the rendered `ParseException` on failure |
| TopLevel.GetUserState | Pidgin.Tests/UserStateTests.cs:31-40 | `UserState` on empty input returns the user state given, consuming nothing |
| TopLevel.MapUserStateReplaces | Pidgin.Tests/UserStateTests.cs:43-53 | `MapUserState` replaces the user state on success |
| TopLevel.FailReported | Pidgin/Parser.Fail.cs:36-42 | at the top level `Fail` reports only its own entry, at offset 0, with its message |
| TopLevel.ConsumedThoughFailed | Pidgin/ParserExtensions.cs:136-141 | `CIString("let")` on "lex" fails but reports input consumed, the error at offset 2 on 'x' |

## Left out

- The recursive `Build` overloads that tie the knot with `Rec` (Pidgin/Expression/ExpressionParser.cs:49-158): the model builds over a fixed term.
- `OperatorTableRow`'s source file is not part of this model; the class is modelled as five operator lists, with null read as empty and `And` concatenating slot by slot.
- `Real` (floating point via `double.TryParse`).
- Buffer pooling, `Dispose`, `IConfiguration` and array pools affect allocation only; plain sequences are used.
- `CurrentPos`/`CurrentSourcePosDelta` (source positions are computed by code that is not part of this model) and `Trace` (console output).
- The input adapters and entry-point overloads (string, list, stream, reader, span): the input is a `seq<char>` and the token type is `char`.
- `RenderErrorMessage` is not part of this model: `GetValueOrThrow` and `ParseOrThrow` take the rendering as a parameter.
- Text.ToLowerInvariant: only ASCII letters are folded; culture-aware case mapping of other characters is not modelled.
- Text.IsWhiteSpace is the character set of .NET's `char.IsWhiteSpace`, written out; Unicode category lookups are not modelled.
- The user state is a value: the test where the user state is a mutable object changed through a reference (`TestPropagateUserState`) is not modelled.
- `Map` with three parsers is not a node of its own: it is derived from two pair maps, as `Laws.Map3Law` states.
- `OneOf` flattening is proved structurally (`Laws.FlattenAppend`, `Laws.CreatedIsFlat`, `Laws.OrChain`). That a nested `OneOf` behaves exactly like its flattened form is not stated: the two can report different errors.
- `Token`, `Map`, `Sequence`, `AtLeastOnce` and `Many` are defined outside the modelled files and have minimal semantics: enough to drive the modelled combinators.
- Exceptions raised by user functions (a predicate, a mapping function or a message function that throws) are not modelled: those functions are total.
- Parsers.Run: its own contract states only the properties every parser shares; each combinator's behaviour is stated on its `Run*` function and in the laws.
- Parsers.RunRecoverWith: the handler chooses among a fixed, finite list of recovery parsers (`ParseError -> nat` indexes it), where the C# handler is any `Func<ParseError<TToken>, Parser<TToken, T>>`. A handler that builds a new parser from the error's contents, such as `Return` of the error's message, cannot be expressed, because a parser node that held a function returning parsers would leave `Run` without a termination measure. The same holds for Machine.TryParseRecoverWith.
- Parsers.OptionallyTerminatedLoop, Parsers.AfterSeparator, Machine.OptionallyTerminatedRest and Machine.ItemStep: these throw the no-progress `InvalidOperationException` on an iteration whose separator and item succeed without advancing. The C# loop has no progress check and goes on: it repeats forever when the pass leaves the whole state unchanged (separator `Return(Unit)`, item `Return(0)`), and it can end later with a result when the item changes the user state, for example an item that counts up the user state and fails once it reaches a bound. The model throws in both cases. It follows the corrected behaviour of the Findings row, and `SeparatedLists.AsWrittenPass` models the loop as written.
- SumExpressions.LeftSumLaw, SumExpressions.RightSumLaw, SumExpressions.LeftSumAdds and SumExpressions.RightSumAdds: these cover sums of one-digit operands only. The benchmark's own input, the numbers 1 to 1000 joined by '+', has mostly multi-digit operands; digit runs are covered separately by `Numbers.UnsignedLaw`, but the sum laws are not stated over them.
- Parsers.RunSeparatedAtLeastOnce and Parsers.RunSeparatedAndOptionallyTerminated: their contracts state the first item's part; the loops are stated by `Laws.RestLoop*` and `SeparatedLists`.

## Findings

| source | as written | input that shows it | evidently intended | confidence | as-written member | corrected member |
|---|---|---|---|---|---|---|
| Pidgin/Parser.Separated.cs:190-238 | the separator-then-item loop of `SeparatedAndOptionallyTerminatedAtLeastOnce` has no check that an iteration advanced | separator `Return(Unit)`, item `Return(0)`, any input: each pass succeeds without consuming and returns to the same state | throw `InvalidOperationException` on an iteration that made no progress, as the loop of `SeparatedAtLeastOnce` does (lines 141-150) | not executed | SeparatedLists.AsWrittenLoopsForever | SeparatedLists.GuardedLoopThrows |
