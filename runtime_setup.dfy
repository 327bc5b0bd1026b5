/**
 * The runtime's setup admission gate. While the setup script is running, a
 * command action that is not marked static is rejected with a fixed error
 * observation; every other action is executed and yields a command-output
 * observation with exit code 0, or raises AttributeError when it has no
 * `command` attribute. The flag that says whether the setup script
 * is running is a field of the runtime, set and cleared step by step.
 */
module RuntimeSetup {
  import opened Wrappers

  const BlockedMessage := "Cannot execute commands until setup.sh has completed. Please wait."
  /** The part of the rejection message that callers look for. */
  const BlockedPhrase := "Cannot execute commands until setup.sh has completed"
  const ExecutedContent := "Command executed successfully"

  /**
   * An action handed to the runtime. `isStatic` is `None` when the action was
   * built without it, which the gate reads as false. Any other kind of action
   * may or may not carry a `command` attribute.
   */
  datatype Action =
    | CmdRunAction(command: string, isStatic: Option<bool>)
    | OtherAction(commandAttribute: Option<string>)

  /** The two observation kinds the runtime returns. */
  datatype Observation =
    | ErrorObservation(content: string)
    | CmdOutputObservation(command: string, content: string, exitCode: int)

  /**
   * What a call to run the action ends in: an observation, or the
   * AttributeError raised when an admitted action has no `command`.
   */
  datatype Outcome = Returned(observation: Observation) | AttributeError(attribute: string) {
    predicate IsRejection() {
      Returned? && observation.ErrorObservation?
    }
    predicate IsExecuted() {
      Returned? && observation.CmdOutputObservation?
    }
  }

  /** The action's `command` attribute, when it has one. */
  function CommandOf(a: Action): Option<string> {
    match a
    case CmdRunAction(c, _) => Some(c)
    case OtherAction(c) => c
  }

  /** The static marker as the gate reads it: absent counts as false. */
  predicate MarkedStatic(a: Action) {
    a.CmdRunAction? && a.isStatic.GetOr(false)
  }

  /**
   * The admission rule. A rejection happens exactly when the action is a
   * command action, not static, and setup is running; it carries the fixed
   * message. Otherwise the action runs and its output names its own command
   * with exit code 0; a command action never ends in an exception.
   */
  function Respond(a: Action, setupScriptRunning: bool): (o: Outcome)
    ensures o.IsRejection() <==> a.CmdRunAction? && !MarkedStatic(a) && setupScriptRunning
    ensures o.IsRejection() ==> o.observation == ErrorObservation(BlockedMessage)
    ensures o.IsExecuted() ==>
      CommandOf(a) == Some(o.observation.command) &&
      o.observation.content == ExecutedContent && o.observation.exitCode == 0
    ensures o.AttributeError? <==> !a.CmdRunAction? && CommandOf(a).None?
    ensures o.AttributeError? ==> o.attribute == "command"
    ensures a.CmdRunAction? ==> o.IsRejection() != o.IsExecuted()
    ensures !setupScriptRunning || MarkedStatic(a) || !a.CmdRunAction? ==> !o.IsRejection()
  {
    if a.CmdRunAction? && !a.isStatic.GetOr(false) && setupScriptRunning then
      Returned(ErrorObservation(BlockedMessage))
    else
      match CommandOf(a)
      case Some(c) => Returned(CmdOutputObservation(c, ExecutedContent, 0))
      case None => AttributeError("command")
  }

  /** The rejection message contains the phrase callers check for. */
  lemma BlockedMessageHasPhrase()
    ensures BlockedPhrase <= BlockedMessage
  {
  }

  /** A runtime whose only modelled state is whether the setup script is running. */
  class Runtime {
    var setupScriptRunning: bool

    /** A fresh runtime is not running a setup script. */
    constructor ()
      ensures !setupScriptRunning
    {
      setupScriptRunning := false;
    }

    /** The setup script starts: non-static commands are now rejected. */
    method StartSetupScript()
      modifies this
      ensures setupScriptRunning
    {
      setupScriptRunning := true;
    }

    /** The setup script completes: every action is admitted again. */
    method FinishSetupScript()
      modifies this
      ensures !setupScriptRunning
    {
      setupScriptRunning := false;
    }

    method IsSetupScriptRunning() returns (running: bool)
      ensures running == setupScriptRunning
    {
      running := setupScriptRunning;
    }

    /** Runs one action through the gate; the flag is left as it was. */
    method RunAction(a: Action) returns (o: Outcome)
      ensures o == Respond(a, setupScriptRunning)
    {
      o := Respond(a, setupScriptRunning);
    }
  }

  /**
   * While setup runs a plain command is rejected with the fixed message; once
   * setup completes the same command runs with exit code 0.
   */
  method SetupScriptBlocksCommands() returns (blocked: Outcome, executed: Outcome)
    ensures blocked.IsRejection() && BlockedPhrase <= blocked.observation.content
    ensures executed.IsExecuted() && executed.observation.exitCode == 0
  {
    var runtime := new Runtime();
    runtime.StartSetupScript();
    var action := CmdRunAction("echo 'Hello'", None);
    blocked := runtime.RunAction(action);
    BlockedMessageHasPhrase();
    runtime.FinishSetupScript();
    executed := runtime.RunAction(CmdRunAction("echo 'Hello'", None));
  }

  /** A static command runs even while setup is running. */
  method SetupScriptAllowsStaticCommands() returns (executed: Outcome)
    ensures executed.IsExecuted() && executed.observation.exitCode == 0
  {
    var runtime := new Runtime();
    runtime.StartSetupScript();
    executed := runtime.RunAction(CmdRunAction("echo 'Hello'", Some(true)));
  }

  /**
   * The flag goes false, true, false. While it is true a regular command is
   * rejected and a static one runs; once it is false again the rejected
   * command, submitted anew, runs.
   */
  method SetupScriptFlagManagement() returns (flags: seq<bool>, outcomes: seq<Outcome>)
    ensures flags == [false, true, false]
    ensures |outcomes| == 3
    ensures outcomes[0].IsRejection()
    ensures outcomes[1].IsExecuted() && outcomes[2].IsExecuted()
  {
    var runtime := new Runtime();
    var initially := runtime.IsSetupScriptRunning();
    runtime.StartSetupScript();
    var started := runtime.IsSetupScriptRunning();
    var action := CmdRunAction("echo 'Hello'", None);
    var regular := runtime.RunAction(action);
    var staticRun := runtime.RunAction(CmdRunAction("echo 'Hello'", Some(true)));
    runtime.FinishSetupScript();
    var finished := runtime.IsSetupScriptRunning();
    var resubmitted := runtime.RunAction(action);
    flags := [initially, started, finished];
    outcomes := [regular, staticRun, resubmitted];
  }

  /** One step of a runtime's life: the flag is assigned, or an action is submitted. */
  datatype Step = Assign(running: bool) | Submit(action: Action)

  /** How many actions a sequence of steps submits. */
  function Submissions(steps: seq<Step>): nat {
    if steps == [] then 0
    else (if steps[0].Submit? then 1 else 0) + Submissions(steps[1..])
  }

  /**
   * The outcomes a runtime produces over a sequence of steps, starting with
   * the flag at `running`: exactly one outcome per submitted action and none
   * for an assignment of the flag.
   */
  function Replay(running: bool, steps: seq<Step>): (outcomes: seq<Outcome>)
    ensures |outcomes| == Submissions(steps)
    decreases |steps|
  {
    if steps == [] then []
    else match steps[0]
      case Assign(b) => Replay(b, steps[1..])
      case Submit(a) => [Respond(a, running)] + Replay(running, steps[1..])
  }

  /** The flag after the steps: the last value assigned, or `running` when none is. */
  function FinalFlag(running: bool, steps: seq<Step>): bool
    decreases |steps|
  {
    if steps == [] then running
    else match steps[0]
      case Assign(b) => FinalFlag(b, steps[1..])
      case Submit(_) => FinalFlag(running, steps[1..])
  }

  /**
   * Drives a runtime through the steps: an assignment starts or completes
   * the setup script, a submission runs the action. The outcomes are those of
   * `Replay` from the runtime's flag before the first step, so the lemmas
   * about `Replay` hold of the runtime object; the flag ends at the last
   * value assigned.
   */
  method Drive(runtime: Runtime, steps: seq<Step>) returns (outcomes: seq<Outcome>)
    modifies runtime
    ensures outcomes == Replay(old(runtime.setupScriptRunning), steps)
    ensures runtime.setupScriptRunning == FinalFlag(old(runtime.setupScriptRunning), steps)
  {
    ghost var start := runtime.setupScriptRunning;
    outcomes := [];
    var i := 0;
    while i < |steps|
      invariant 0 <= i <= |steps|
      invariant outcomes + Replay(runtime.setupScriptRunning, steps[i..]) == Replay(start, steps)
      invariant FinalFlag(runtime.setupScriptRunning, steps[i..]) == FinalFlag(start, steps)
    {
      ghost var before := runtime.setupScriptRunning;
      assert steps[i..][1..] == steps[i + 1..];
      match steps[i] {
        case Assign(b) =>
          if b {
            runtime.StartSetupScript();
          } else {
            runtime.FinishSetupScript();
          }
        case Submit(a) =>
          var o := runtime.RunAction(a);
          assert Replay(before, steps[i..]) == [o] + Replay(before, steps[i + 1..]);
          outcomes := outcomes + [o];
      }
      i := i + 1;
    }
    assert steps[|steps|..] == [];
  }

  /** Steps that never set the flag to true. */
  predicate NeverStartsSetup(steps: seq<Step>) {
    forall i | 0 <= i < |steps| :: !(steps[i].Assign? && steps[i].running)
  }

  /**
   * Clearing the flag produces no outcome of its own and nothing carries
   * over past it: the outcomes are those before the clear followed by those
   * of the later steps run from a false flag. Actions rejected earlier are not
   * queued and run when setup completes.
   */
  lemma {:induction false} ClearingReplaysNothing(running: bool, before: seq<Step>, after: seq<Step>)
    ensures Replay(running, before + [Assign(false)] + after) == Replay(running, before) + Replay(false, after)
    decreases |before|
  {
    if before == [] {
      assert before + [Assign(false)] + after == [Assign(false)] + after;
      assert ([Assign(false)] + after)[1..] == after;
    } else {
      assert (before + [Assign(false)] + after)[1..] == before[1..] + [Assign(false)] + after;
      match before[0]
      case Assign(b) => ClearingReplaysNothing(b, before[1..], after);
      case Submit(a) => ClearingReplaysNothing(running, before[1..], after);
    }
  }

  /** Once the flag is false and stays so, no submitted action is rejected. */
  lemma {:induction false} NoRejectionOnceReleased(steps: seq<Step>)
    requires NeverStartsSetup(steps)
    ensures forall k | 0 <= k < |Replay(false, steps)| :: !Replay(false, steps)[k].IsRejection()
  {
    if steps != [] {
      assert NeverStartsSetup(steps[1..]) by {
        forall i | 0 <= i < |steps[1..]|
          ensures !(steps[1..][i].Assign? && steps[1..][i].running)
        {
          assert steps[1..][i] == steps[i + 1];
        }
      }
      NoRejectionOnceReleased(steps[1..]);
      match steps[0]
      case Assign(b) =>
        assert !b;
      case Submit(a) =>
        var rest := Replay(false, steps[1..]);
        assert Replay(false, steps) == [Respond(a, false)] + rest;
        forall k | 0 <= k < |Replay(false, steps)|
          ensures !Replay(false, steps)[k].IsRejection()
        {
          if k > 0 {
            assert Replay(false, steps)[k] == rest[k - 1];
          }
        }
    }
  }

  /**
   * Every outcome is the fixed rejection, an output of exit code 0 and the
   * fixed content, or the missing-attribute error: nothing else is produced.
   */
  lemma {:induction false} OutcomesAreWellFormed(running: bool, steps: seq<Step>)
    ensures forall k | 0 <= k < |Replay(running, steps)| ::
      var o := Replay(running, steps)[k];
      o == Returned(ErrorObservation(BlockedMessage)) ||
      (o.IsExecuted() && o.observation.exitCode == 0 && o.observation.content == ExecutedContent) ||
      o == AttributeError("command")
    decreases |steps|
  {
    if steps != [] {
      match steps[0]
      case Assign(b) =>
        OutcomesAreWellFormed(b, steps[1..]);
      case Submit(a) =>
        OutcomesAreWellFormed(running, steps[1..]);
        var rest := Replay(running, steps[1..]);
        assert Replay(running, steps) == [Respond(a, running)] + rest;
        forall k | 0 <= k < |Replay(running, steps)|
          ensures var o := Replay(running, steps)[k];
            o == Returned(ErrorObservation(BlockedMessage)) ||
            (o.IsExecuted() && o.observation.exitCode == 0 && o.observation.content == ExecutedContent) ||
            o == AttributeError("command")
        {
          if k > 0 {
            assert Replay(running, steps)[k] == rest[k - 1];
          }
        }
    }
  }

  /**
   * Starting with setup running, a non-static command is rejected, a static
   * one runs, and after the flag is cleared the rejected command, submitted
   * again, runs.
   */
  lemma ResubmissionAfterSetupIsAdmitted(command: string)
    ensures Replay(true, [
        Submit(CmdRunAction(command, None)),
        Submit(CmdRunAction(command, Some(true))),
        Assign(false),
        Submit(CmdRunAction(command, None))])
      == [Returned(ErrorObservation(BlockedMessage)),
          Returned(CmdOutputObservation(command, ExecutedContent, 0)),
          Returned(CmdOutputObservation(command, ExecutedContent, 0))]
  {
    var a := CmdRunAction(command, None);
    var s := CmdRunAction(command, Some(true));
    var steps := [Submit(a), Submit(s), Assign(false), Submit(a)];
    var last := Replay(false, [Submit(a)]);
    assert [Submit(a)][1..] == [];
    assert last == [Respond(a, false)];
    var afterClear := Replay(true, [Assign(false), Submit(a)]);
    assert [Assign(false), Submit(a)][1..] == [Submit(a)];
    assert afterClear == last;
    var afterStatic := Replay(true, [Submit(s), Assign(false), Submit(a)]);
    assert [Submit(s), Assign(false), Submit(a)][1..] == [Assign(false), Submit(a)];
    assert afterStatic == [Respond(s, true)] + afterClear;
    assert steps[1..] == [Submit(s), Assign(false), Submit(a)];
    assert Replay(true, steps) == [Respond(a, true)] + afterStatic;
  }
}
