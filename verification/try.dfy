/** The Try command: run a primary command and, only when it fails, a fallback.
    Commands other than Try are represented by the outcome their `Run` gives. */
module Fallback {
  import opened Base

  /** A command as Try sees it: any other command by its header and the outcome of
      its `Run`, or a Try (`Attempt`) with its primary and fallback. */
  datatype Command =
    | Leaf(header: Header, outcome: RunOutcome)
    | Attempt(header: Header, description: string, tryCommand: Command, onFailCommand: Command)

  /** Try is synchronous: it blocks until whichever branch runs has finished. */
  function NewTry(description: string, tryCommand: Command, onFailCommand: Command): (t: Command)
    ensures t.Attempt? && t.header == NewSyncHeader(Base.Try) && t.description == description
    ensures t.tryCommand == tryCommand && t.onFailCommand == onFailCommand
  {
    Attempt(NewSyncHeader(Base.Try), description, tryCommand, onFailCommand)
  }

  /** A primary fails when it reports a transport error or an unsuccessful result. */
  predicate Fails(o: RunOutcome) {
    !o.IsSuccess()
  }

  /** `Run`: the outcome and the non-Try commands executed, in order. The outcome is
      that of the last command executed, and every command executed before it failed. */
  function Run(c: Command): (r: (RunOutcome, seq<Command>))
    ensures |r.1| > 0 && forall k | 0 <= k < |r.1| :: r.1[k].Leaf?
    ensures r.0 == r.1[|r.1| - 1].outcome
    ensures forall k | 0 <= k < |r.1| - 1 :: Fails(r.1[k].outcome)
  {
    match c
    case Leaf(_, outcome) => (outcome, [c])
    case Attempt(_, _, primary, fallback) =>
      var first := Run(primary);
      if !Fails(first.0) then first
      else
        var second := Run(fallback);
        (second.0, first.1 + second.1)
  }

  /** A succeeding primary is the Try's outcome, and the fallback is never run. */
  lemma PrimarySucceeds(description: string, primary: Command, fallback: Command)
    requires !Fails(Run(primary).0)
    ensures Run(NewTry(description, primary, fallback)) == Run(primary)
  {
  }

  /** A failing primary is followed by the fallback, whose outcome is returned as is. */
  lemma PrimaryFails(description: string, primary: Command, fallback: Command)
    requires Fails(Run(primary).0)
    ensures Run(NewTry(description, primary, fallback)).0 == Run(fallback).0
    ensures Run(NewTry(description, primary, fallback)).1 == Run(primary).1 + Run(fallback).1
  {
  }

  /** Whether a command is sync or async does not change what a Try returns. */
  function Recategorize(c: Command, category: Category): (r: Command)
    ensures r.header.category == category && r.header.name == c.header.name
    ensures r.Leaf? <==> c.Leaf?
    ensures r.Leaf? ==> r.outcome == c.outcome
  {
    match c
    case Leaf(h, outcome) => Leaf(h.(category := category), outcome)
    case Attempt(h, d, primary, fallback) => Attempt(h.(category := category), d, primary, fallback)
  }

  lemma {:induction false} CategoryIrrelevant(description: string, primary: Command, fallback: Command,
                                               primaryCategory: Category, fallbackCategory: Category)
    ensures Run(NewTry(description, primary, fallback)).0
         == Run(NewTry(description, Recategorize(primary, primaryCategory), Recategorize(fallback, fallbackCategory))).0
  {
    RecategorizeRun(primary, primaryCategory);
    RecategorizeRun(fallback, fallbackCategory);
  }

  lemma RecategorizeRun(c: Command, category: Category)
    ensures Run(Recategorize(c, category)).0 == Run(c).0
  {
  }

  /** The commands the tests combine: a logger succeeds with its message, a sleep
      with the time it slept. */
  function Logger(msg: string): (c: Command)
    ensures c.Leaf? && c.header.category == Sync && c.outcome == Succeeded(msg)
  {
    Leaf(NewSyncHeader(Base.Logger), Succeeded(msg))
  }

  function AsyncSleep(duration: string): (c: Command)
    ensures c.Leaf? && c.header.category == Async && c.outcome == Succeeded("Slept for " + duration)
  {
    Leaf(Header(GenerateCommandId(Sleep), Async, Sleep), Succeeded("Slept for " + duration))
  }

  /** A Fail command, in either category, with whatever failing outcome it reports. */
  function FailWith(category: Category, outcome: RunOutcome): (c: Command)
    requires Fails(outcome)
    ensures c.Leaf? && Fails(c.outcome) && c.header.category == category
  {
    Leaf(Header(GenerateCommandId(Fail), category, Fail), outcome)
  }

  lemma SyncPrimarySucceeds()
    ensures Run(NewTry("test sync", Logger("cmd1"), Logger("cmd2"))).0 == Succeeded("cmd1")
  {
    PrimarySucceeds("test sync", Logger("cmd1"), Logger("cmd2"));
  }

  lemma SyncPrimaryFails(failure: RunOutcome)
    requires Fails(failure)
    ensures Run(NewTry("test sync fail", FailWith(Sync, failure), Logger("cmd2"))).0 == Succeeded("cmd2")
  {
    PrimaryFails("test sync fail", FailWith(Sync, failure), Logger("cmd2"));
  }

  lemma AsyncPrimarySucceeds()
    ensures Run(NewTry("test async", AsyncSleep("0"), Logger("cmd2"))).0 == Succeeded("Slept for 0")
  {
    assert "Slept for " + "0" == "Slept for 0";
    PrimarySucceeds("test async", AsyncSleep("0"), Logger("cmd2"));
  }

  lemma AsyncPrimaryFails(failure: RunOutcome)
    requires Fails(failure)
    ensures Run(NewTry("test async", FailWith(Async, failure), AsyncSleep("0"))).0 == Succeeded("Slept for 0")
  {
    assert "Slept for " + "0" == "Slept for 0";
    PrimaryFails("test async", FailWith(Async, failure), AsyncSleep("0"));
  }

  /** A decoded Try: its description and the nested `cmd` and `onFail` commands, each
      absent when missing from the JSON or not decodable. */
  datatype TryJson = TryJson(description: string, cmd: Option<Command>, onFail: Option<Command>)

  /** `NewTryFromJSON`: both children must decode. */
  function FromJSON(decoded: Option<TryJson>): (r: Result<Command>)
    ensures r.Ok? <==> decoded.Some? && decoded.value.cmd.Some? && decoded.value.onFail.Some?
    ensures r.Ok? ==> r.value == NewTry(decoded.value.description, decoded.value.cmd.value, decoded.value.onFail.value)
    ensures r.Err? ==> r.error == UnmarshalFailure
  {
    match decoded
    case Some(TryJson(d, Some(primary), Some(fallback))) => Ok(NewTry(d, primary, fallback))
    case _ => Err(UnmarshalFailure)
  }

  lemma FromJsonHasBothChildren()
    ensures var msg := "This is a logging message";
      var r := FromJSON(Some(TryJson("Try", Some(Logger(msg)), Some(Logger(msg)))));
      r.Ok? && r.value.tryCommand == Logger(msg) && r.value.onFailCommand == Logger(msg)
  {
  }
}
