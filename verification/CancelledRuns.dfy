/** Runs, carried out by the executor, that end other than one would expect of a cancelled run. */
module CancelledRuns {
  import opened Protocol
  import opened History
  import opened ActivePath
  import opened ReachableLog
  import opened CompactionEffect
  import opened RunRecord
  import opened RunTrace
  import opened Runtime
  import opened CompactionService
  import opened Runner

  lemma NewSession()
    ensures Reachable([Header("session", "/workspace")]) && HasHeader([Header("session", "/workspace")], "session")
  {
    assert [Header("session", "/workspace")][0].Header?;
  }

  /** Sends a message to a new session, in surroundings that do their part. */
  method Begin(config: Config, replies: Replies, cancelled: Schedule)
    returns (runner: SessionRunner, executor: RunExecutor)
    ensures fresh(runner) && fresh(executor) && fresh(executor.store) && fresh(executor.token)
    ensures executor.config == config && executor.Ready() && executor.Dependable(executor.store.entries)
    ensures executor.services == Services(true, true, true, replies, cancelled)
    ensures executor.token.schedule == cancelled && (executor.token.Timed() ==> !executor.token.cancelled)
    ensures runner.activeRun == Some(ActiveRun(executor.runId, executor.token))
  {
    hide Reachable, AwaitsRun, Messages;
    NewSession();
    var log := [Header("session", "/workspace")];
    var store := new SessionStore(log, true);
    runner := new SessionRunner(store, config, "session", Services(true, true, true, replies, cancelled));
    var sent := runner.SendMessage("hello", None);
    executor := sent.value;
    assert store.entries[0] == log[0];
  }

  lemma Budgets(path: seq<PathItem>)
    ensures !Needed(Config(0, 90), path) && Needed(Config(1, 0), path)
  {
    hide Tokens;
  }

  /** Cancelled before it begins, and with no budget, so that there is nothing to compact: the run ends as cancelled,
      and has never said RunCancelled. */
  method SilentCancel() returns (executor: RunExecutor, outcome: RunOutcome)
    ensures fresh(executor) && outcome == RunWasCancelled(false)
    ensures PhaseOf(executor.events) == Ended(RunStatus.Cancelled) && Notices(executor.events) == 0
  {
    hide PhaseOf, Notices, Path, Needed, Sends, InStep, Behind;
    var runner;
    runner, executor := Begin(Config(0, 90), AnyCalls, Anytime);
    runner.CancelRun();
    outcome := executor.Run(runner, 1);
    Budgets(Path(executor.readLog));
  }

  /** Cancelled before it begins, and with a budget of one token: the run needs compaction, and ends as failed. */
  method CancelledYetFailed() returns (executor: RunExecutor, outcome: RunOutcome)
    ensures fresh(executor) && fresh(executor.token) && executor.token.cancelled
    ensures outcome == RunFailed && PhaseOf(executor.events) == Ended(Failed)
  {
    hide PhaseOf, Notices, Path, Needed, Sends, InStep, Behind;
    var runner;
    runner, executor := Begin(Config(1, 0), AnyCalls, Anytime);
    runner.CancelRun();
    outcome := executor.Run(runner, 1);
    Budgets(Path(executor.readLog));
  }

  /** Cancelled when the last response has been read and the runner is not free yet: the run ends as succeeded. */
  method CancelledYetSucceeded() returns (executor: RunExecutor, outcome: RunOutcome)
    ensures fresh(executor) && fresh(executor.token) && executor.token.cancelled
    ensures outcome == RunSucceeded && PhaseOf(executor.events) == Ended(Succeeded)
  {
    hide PhaseOf, Notices, Path, Needed, Sends, InStep, Behind, Pending;
    var runner;
    runner, executor := Begin(Config(0, 90), Always(None), At(BeforeClear));
    outcome := executor.Run(runner, 1);
  }

  /** Cancelled when a reply with these calls has been read: the run says RunCancelled and leaves all of them
      without a result in the log. */
  method CallsLeftUnanswered(calls: seq<ToolCall>) returns (executor: RunExecutor, outcome: RunOutcome)
    ensures fresh(executor) && fresh(executor.store) && outcome == RunWasCancelled(true)
    ensures PhaseOf(executor.events) == Ended(RunStatus.Cancelled) && Event.RunCancelled in executor.events
    ensures Pending(Messages(executor.store.entries)) == calls
  {
    hide PhaseOf, Notices, Path, Needed, Sends, InStep, Behind, Pending;
    var runner;
    runner, executor := Begin(Config(0, 90), Always(Some(calls)), At(AfterReply));
    outcome := executor.Run(runner, 1);
    assert executor.events[|executor.events| - 2] == Event.RunCancelled;
  }
}
