/**
 * The separator-then-item loop of `SeparatedAndOptionallyTerminatedAtLeastOnce`: how each
 * iteration ends the list, fails it or goes on, and what happens when an iteration makes no
 * progress. The loop as written has no check for that case; `AsWrittenPass` models one pass of
 * it and `AsWrittenLoopsForever` shows the pass returning to the state it started from. The
 * model's loop, `Parsers.OptionallyTerminatedLoop`, throws there instead, as the other
 * repetitions do.
 */
module SeparatedLists {
  import opened Values
  import opened ParseStates
  import opened Parsers
  import opened Machine

  /** A separator that fails after consuming input fails the list with the separator's failure and entries. */
  lemma SeparatorFailsConsuming(item: Parser, separator: Parser, s: State, ts: seq<Value>)
    requires ValidState(s)
    requires Run(separator, s).status == Failed && Run(separator, s).state.location > s.location
    ensures OptionallyTerminatedLoop(item, separator, s, ts) == Run(separator, s)
  {
  }

  /** A separator that fails without consuming input ends the list with the items so far. */
  lemma SeparatorEndsList(item: Parser, separator: Parser, s: State, ts: seq<Value>)
    requires ValidState(s)
    requires Run(separator, s).status == Failed && Run(separator, s).state.location == s.location
    ensures OptionallyTerminatedLoop(item, separator, s, ts) == Outcome(Succeeded, VList(ts), Run(separator, s).state, [])
  {
  }

  /**
   * A separator followed by an item that fails without consuming input: the separator was a
   * terminator. The list ends successfully with the items so far, the separator consumed.
   */
  lemma TerminatorConsumed(item: Parser, separator: Parser, s: State, ts: seq<Value>)
    requires ValidState(s)
    requires Run(separator, s).status == Succeeded
    requires var io := Run(item, Run(separator, s).state); io.status == Failed && io.state.location == Run(separator, s).state.location
    ensures var so := Run(separator, s); var o := OptionallyTerminatedLoop(item, separator, s, ts);
      && o == Outcome(Succeeded, VList(ts), Run(item, so.state).state, [])
      && o.state.location == so.state.location
  {
    SeparatorSucceeded(item, separator, s, ts);
    ItemEndsList(item, separator, s, Run(separator, s).state, ts);
  }

  /** The item half: an item that fails without consuming input ends the list. */
  lemma ItemEndsList(item: Parser, separator: Parser, start: State, s: State, ts: seq<Value>)
    requires ValidState(s) && start.location <= s.location && start.bookmarks == s.bookmarks && start.input == s.input
    requires Run(item, s).status == Failed && Run(item, s).state.location == s.location
    ensures AfterSeparator(item, separator, start, s, ts) == Outcome(Succeeded, VList(ts), Run(item, s).state, [])
  {
  }

  /** An item that fails after consuming input, after a separator, fails the list with the item's failure and entries. */
  lemma ItemFailsConsuming(item: Parser, separator: Parser, s: State, ts: seq<Value>)
    requires ValidState(s)
    requires Run(separator, s).status == Succeeded
    requires var io := Run(item, Run(separator, s).state); io.status == Failed && io.state.location > Run(separator, s).state.location
    ensures OptionallyTerminatedLoop(item, separator, s, ts) == Run(item, Run(separator, s).state)
  {
    assert OptionallyTerminatedLoop(item, separator, s, ts)
      == AfterSeparator(item, separator, s, Run(separator, s).state, ts);
  }

  /** A separator and an item that both succeed and together advance: the item is collected and the loop goes on. */
  lemma IterationAdvances(item: Parser, separator: Parser, s: State, ts: seq<Value>)
    requires ValidState(s)
    requires Run(separator, s).status == Succeeded
    requires var io := Run(item, Run(separator, s).state); io.status == Succeeded && io.state.location > s.location
    ensures var io := Run(item, Run(separator, s).state);
      OptionallyTerminatedLoop(item, separator, s, ts) == OptionallyTerminatedLoop(item, separator, io.state, ts + [io.result])
  {
    SeparatorSucceeded(item, separator, s, ts);
    ItemSucceeded(item, separator, s, Run(separator, s).state, ts);
  }

  /** A separator and an item that both succeed without advancing past the iteration's start: the loop throws. */
  lemma NoProgressThrows(item: Parser, separator: Parser, s: State, ts: seq<Value>)
    requires ValidState(s)
    requires Run(separator, s).status == Succeeded
    requires var io := Run(item, Run(separator, s).state); io.status == Succeeded && io.state.location <= s.location
    ensures OptionallyTerminatedLoop(item, separator, s, ts).status == Threw(InvalidOperation(NoProgressMessage))
  {
    assert OptionallyTerminatedLoop(item, separator, s, ts)
      == AfterSeparator(item, separator, s, Run(separator, s).state, ts);
  }

  // ---------------------------------------------------------------------------------------
  // The loop as written

  /** Where one pass of the loop leaves it: finished with an outcome, or ready for another pass. */
  datatype Pass = Stop(o: Outcome) | Again(s: State, ts: seq<Value>)

  /** One pass of the separator-then-item loop as written, without a check that the pass advanced. */
  function AsWrittenPass(item: Parser, separator: Parser, s: State, ts: seq<Value>): (r: Pass)
    requires ValidState(s)
    ensures r.Again? ==> ValidState(r.s) && r.s.input == s.input
  {
    var so := Run(separator, s);
    if so.status.Threw? then Stop(so.(added := []))
    else if so.status == Failed then
      if so.state.location > s.location then Stop(so) else Stop(Outcome(Succeeded, VList(ts), so.state, []))
    else AsWrittenItem(item, so.state, ts)
  }

  /** The item half of a pass as written, after the separator succeeded and left `s`. */
  function AsWrittenItem(item: Parser, s: State, ts: seq<Value>): (r: Pass)
    requires ValidState(s)
    ensures r.Again? ==> ValidState(r.s) && r.s.input == s.input
  {
    var io := Run(item, s);
    if io.status.Threw? then Stop(io.(added := []))
    else if io.status == Failed then
      if io.state.location > s.location then Stop(io) else Stop(Outcome(Succeeded, VList(ts), io.state, []))
    else Again(io.state, ts + [io.result])
  }

  /** `n` passes of the loop as written. */
  function AsWrittenPasses(item: Parser, separator: Parser, s: State, ts: seq<Value>, n: nat): Pass
    requires ValidState(s)
    decreases n
  {
    if n == 0 then Again(s, ts)
    else
      match AsWrittenPass(item, separator, s, ts)
      case Stop(o) => Stop(o)
      case Again(s', ts') => AsWrittenPasses(item, separator, s', ts', n - 1)
  }

  /** A pass of the loop as written agrees with the model's loop wherever the pass advanced or stopped. */
  lemma AsWrittenAgrees(item: Parser, separator: Parser, s: State, ts: seq<Value>)
    requires ValidState(s)
    ensures var r := AsWrittenPass(item, separator, s, ts);
      && (r.Stop? ==> r.o == OptionallyTerminatedLoop(item, separator, s, ts))
      && (r.Again? && r.s.location > s.location ==> OptionallyTerminatedLoop(item, separator, r.s, r.ts) == OptionallyTerminatedLoop(item, separator, s, ts))
  {
    var so := Run(separator, s);
    if so.status == Succeeded {
      SeparatorSucceeded(item, separator, s, ts);
      assert AsWrittenPass(item, separator, s, ts) == AsWrittenItem(item, so.state, ts);
      AsWrittenItemAgrees(item, separator, s, so.state, ts);
    } else {
      AsWrittenSeparatorAgrees(item, separator, s, ts);
    }
  }

  /** A pass whose separator did not succeed stops where the model's loop stops. */
  lemma AsWrittenSeparatorAgrees(item: Parser, separator: Parser, s: State, ts: seq<Value>)
    requires ValidState(s) && Run(separator, s).status != Succeeded
    ensures AsWrittenPass(item, separator, s, ts) == Stop(OptionallyTerminatedLoop(item, separator, s, ts))
  {
  }

  /** The item half of a pass as written, against the model's `AfterSeparator`. */
  lemma AsWrittenItemAgrees(item: Parser, separator: Parser, start: State, s: State, ts: seq<Value>)
    requires ValidState(s) && start.location <= s.location && start.bookmarks == s.bookmarks && start.input == s.input
    ensures var r := AsWrittenItem(item, s, ts);
      && (r.Stop? ==> r.o == AfterSeparator(item, separator, start, s, ts))
      && (r.Again? && r.s.location > start.location ==>
            OptionallyTerminatedLoop(item, separator, r.s, r.ts) == AfterSeparator(item, separator, start, s, ts))
  {
  }

  function Zeros(n: nat): (zs: seq<Value>)
    ensures |zs| == n && forall i :: 0 <= i < n ==> zs[i] == VInt(0)
  {
    seq(n, _ => VInt(0))
  }

  /**
   * With `Return(Unit)` as the separator and `Return(0)` as the item, a pass of the loop as
   * written returns to the very state it started in, one more item collected: after any number
   * of passes it has not stopped, so the loop never ends.
   */
  lemma {:induction false} AsWrittenLoopsForever(s: State, ts: seq<Value>, n: nat)
    requires ValidState(s)
    ensures AsWrittenPasses(Return(VInt(0)), Return(VUnit), s, ts, n) == Again(s, ts + Zeros(n))
    decreases n
  {
    if n == 0 {
      assert ts + Zeros(0) == ts;
    } else {
      assert Run(Return(VUnit), s) == RunPrimitive(Return(VUnit), s);
      assert Run(Return(VInt(0)), s) == RunPrimitive(Return(VInt(0)), s);
      assert AsWrittenPass(Return(VInt(0)), Return(VUnit), s, ts) == Again(s, ts + [VInt(0)]);
      AsWrittenLoopsForever(s, ts + [VInt(0)], n - 1);
      assert ts + [VInt(0)] + Zeros(n - 1) == ts + Zeros(n);
    }
  }

  /** The model's loop on the same parsers throws the no-progress exception, as the other repetitions do. */
  lemma GuardedLoopThrows(s: State)
    requires ValidState(s)
    ensures Run(SeparatedAndOptionallyTerminatedAtLeastOnce(Return(VInt(0)), Return(VUnit)), s).status
      == Threw(InvalidOperation(NoProgressMessage))
  {
    var p := SeparatedAndOptionallyTerminatedAtLeastOnce(Return(VInt(0)), Return(VUnit));
    assert Run(p, s) == RunRepetition(p, s);
    assert Run(Return(VUnit), s) == RunPrimitive(Return(VUnit), s);
    assert Run(Return(VInt(0)), s) == RunPrimitive(Return(VInt(0)), s);
    NoProgressThrows(Return(VInt(0)), Return(VUnit), s, [VInt(0)]);
  }
}
