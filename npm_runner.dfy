/** runNpmChildProcess.js: run `npm` with the installer's flags, and retry a run that fails to spawn. */
module NpmRunner {
  import opened Common

  /** MAX_RETRY_COUNT: the total number of attempts runNpmChildProcess allows. */
  const MaxRetryCount := 1

  const CacheMinFlag := "--cache-min=600000"
  const NoOptionalFlag := "--no-optional"
  const LogLevelFlag := "--loglevel=error"
  const CacheFlagPrefix := "--cache="

  /** What a spawned npm process emits, in order. An exit code is absent when a signal ended it. */
  datatype ChildEvent =
    | StderrData(text: string)
    | StdoutData(text: string)
    | Exit(code: Option<nat>)
    | SpawnError(reason: string)

  /** How the promise of one attempt settles. */
  datatype Settlement = Resolved | Rejected(reason: string)

  /** The state of one createNpmChildProcess call: how its promise settled (if it did), the output
      captured so far, the lines logged under mocha, and the error thrown from the exit handler
      (which ends the process, so nothing after it is handled). */
  datatype Attempt = Attempt(settled: Option<Settlement>, stderr: string, stdout: string,
                             logged: seq<string>, thrown: Option<string>)

  /** The `${code}` of an exit code: a number, or null when there is none. */
  function ExitCodeText(code: Option<nat>): string {
    match code
    case Some(n) => NatToString(n)
    case None => "null"
  }

  /** One captured stream under its heading, or nothing when it is empty. */
  function Section(name: string, text: string): string {
    if text == "" then "" else name + "=\n" + text
  }

  /** The details appended to the failure message: nothing when both streams are empty; otherwise
      ", details:\n", a blank line when both streams have output, then each non-empty stream. */
  function Details(stderr: string, stdout: string): string {
    if stderr == "" && stdout == "" then "" else ", details:\n" + DetailsBody(stderr, stdout)
  }

  /** What follows ", details:\n". */
  function DetailsBody(stderr: string, stdout: string): string {
    (if stderr != "" && stdout != "" then "\n" else "") + Section("stderr", stderr) + Section("stdout", stdout)
  }

  /** The message logged (under mocha) or thrown when npm exits with another code than 0. */
  function FailureMessage(args: seq<string>, code: Option<nat>, details: string): string {
    "the execution of 'npm " + Join(args, " ") + "' failed with an unsuccessful exit code (" + ExitCodeText(code) + ")" + details
  }

  /** A promise settles once; later calls of resolve or reject do nothing. */
  function Settle(a: Attempt, s: Settlement): Attempt {
    if a.settled.None? then a.(settled := Some(s)) else a
  }

  /** The event handlers of createNpmChildProcess. */
  function Handle(args: seq<string>, mocha: bool, a: Attempt, e: ChildEvent): Attempt {
    if a.thrown.Some? then a
    else match e
      case StderrData(text) => a.(stderr := a.stderr + text)
      case StdoutData(text) => a.(stdout := a.stdout + text)
      case Exit(code) =>
        if code == Some(0) then Settle(a, Resolved)
        else
          var message := FailureMessage(args, code, Details(a.stderr, a.stdout));
          if mocha then a.(logged := a.logged + [message]) else a.(thrown := Some(message))
      case SpawnError(reason) => Settle(a, Rejected(reason))
  }

  const Spawned := Attempt(None, "", "", [], None)

  /** The attempt after its handlers ran on each event in turn. */
  function AttemptAfter(args: seq<string>, mocha: bool, events: seq<ChildEvent>): Attempt {
    if events == [] then Spawned
    else Handle(args, mocha, AttemptAfter(args, mocha, events[..|events| - 1]), events[|events| - 1])
  }

  /** The text of the stderr chunks, in order. */
  function StderrText(events: seq<ChildEvent>): string {
    if events == [] then ""
    else StderrText(events[..|events| - 1]) + (if events[|events| - 1].StderrData? then events[|events| - 1].text else "")
  }

  /** The text of the stdout chunks, in order. */
  function StdoutText(events: seq<ChildEvent>): string {
    if events == [] then ""
    else StdoutText(events[..|events| - 1]) + (if events[|events| - 1].StdoutData? then events[|events| - 1].text else "")
  }

  /** An event that settles a promise nobody settled yet. */
  predicate Settling(e: ChildEvent) {
    e == Exit(Some(0)) || e.SpawnError?
  }

  function SettlementOf(e: ChildEvent): Settlement
    requires Settling(e)
  {
    if e.SpawnError? then Rejected(e.reason) else Resolved
  }

  /** A non-zero exit outside mocha: the handler throws and the process ends. */
  predicate Crashing(mocha: bool, e: ChildEvent) {
    !mocha && e.Exit? && e.code != Some(0)
  }

  // ---------------------------------------------------------------------------------------------
  // Properties of one attempt

  lemma PrefixOfSnoc(events: seq<ChildEvent>, e: ChildEvent)
    ensures (events + [e])[..|events|] == events
  {
  }

  /** Once the exit handler has thrown, nothing changes any more. */
  lemma {:induction false} ThrownIsFinal(args: seq<string>, mocha: bool, pre: seq<ChildEvent>, post: seq<ChildEvent>)
    requires AttemptAfter(args, mocha, pre).thrown.Some?
    ensures AttemptAfter(args, mocha, pre + post) == AttemptAfter(args, mocha, pre)
  {
    if post != [] {
      var shorter := post[..|post| - 1];
      ThrownIsFinal(args, mocha, pre, shorter);
      assert (pre + post)[..|pre + post| - 1] == pre + shorter;
    } else {
      assert pre + post == pre;
    }
  }

  /** Once the promise settled, later events do not change how. */
  lemma {:induction false} SettlementIsFinal(args: seq<string>, mocha: bool, pre: seq<ChildEvent>, post: seq<ChildEvent>)
    requires AttemptAfter(args, mocha, pre).settled.Some?
    ensures AttemptAfter(args, mocha, pre + post).settled == AttemptAfter(args, mocha, pre).settled
  {
    if post != [] {
      var shorter := post[..|post| - 1];
      SettlementIsFinal(args, mocha, pre, shorter);
      assert (pre + post)[..|pre + post| - 1] == pre + shorter;
    } else {
      assert pre + post == pre;
    }
  }

  /** An attempt resolves only after npm exited with code 0. */
  lemma {:induction false} ResolvesOnlyOnExitZero(args: seq<string>, mocha: bool, events: seq<ChildEvent>)
    requires AttemptAfter(args, mocha, events).settled == Some(Resolved)
    ensures exists k :: 0 <= k < |events| && events[k] == Exit(Some(0))
  {
    var n := |events| - 1;
    var pre := events[..n];
    if AttemptAfter(args, mocha, pre).settled == Some(Resolved) {
      ResolvesOnlyOnExitZero(args, mocha, pre);
      var k :| 0 <= k < |pre| && pre[k] == Exit(Some(0));
      assert events[k] == pre[k];
    } else {
      assert events[n] == Exit(Some(0));
    }
  }

  /** An attempt rejects only on a spawn error, and with that error's reason: a non-zero exit code
      never rejects. */
  lemma {:induction false} RejectsOnlyOnSpawnError(args: seq<string>, mocha: bool, events: seq<ChildEvent>)
    requires AttemptAfter(args, mocha, events).settled.Some? && AttemptAfter(args, mocha, events).settled.value.Rejected?
    ensures exists k :: 0 <= k < |events| && events[k] == SpawnError(AttemptAfter(args, mocha, events).settled.value.reason)
  {
    var n := |events| - 1;
    var pre := events[..n];
    var reason := AttemptAfter(args, mocha, events).settled.value.reason;
    if AttemptAfter(args, mocha, pre).settled.Some? {
      assert AttemptAfter(args, mocha, pre).settled == AttemptAfter(args, mocha, events).settled;
      RejectsOnlyOnSpawnError(args, mocha, pre);
      var k :| 0 <= k < |pre| && pre[k] == SpawnError(reason);
      assert events[k] == pre[k];
    } else {
      assert events[n] == SpawnError(reason);
    }
  }

  /** Before the first settling or crashing event nothing has settled or been thrown. */
  lemma {:induction false} QuietPrefix(args: seq<string>, mocha: bool, pre: seq<ChildEvent>)
    requires forall k :: 0 <= k < |pre| ==> !Settling(pre[k]) && !Crashing(mocha, pre[k])
    ensures AttemptAfter(args, mocha, pre).settled.None? && AttemptAfter(args, mocha, pre).thrown.None?
  {
    if pre != [] {
      QuietPrefix(args, mocha, pre[..|pre| - 1]);
    }
  }

  /** The first settling event decides the attempt: exit code 0 resolves, a spawn error rejects
      with its reason. */
  lemma {:induction false} FirstSettlingEventDecides(args: seq<string>, mocha: bool, pre: seq<ChildEvent>, e: ChildEvent, post: seq<ChildEvent>)
    requires forall k :: 0 <= k < |pre| ==> !Settling(pre[k]) && !Crashing(mocha, pre[k])
    requires Settling(e)
    ensures AttemptAfter(args, mocha, pre + [e] + post).settled == Some(SettlementOf(e))
  {
    QuietPrefix(args, mocha, pre);
    PrefixOfSnoc(pre, e);
    assert AttemptAfter(args, mocha, pre + [e]).settled == Some(SettlementOf(e));
    SettlementIsFinal(args, mocha, pre + [e], post);
  }

  /** While the process runs, the captured stderr and stdout are the in-order concatenations of
      their chunks. */
  lemma {:induction false} CapturedOutput(args: seq<string>, mocha: bool, events: seq<ChildEvent>)
    requires AttemptAfter(args, mocha, events).thrown.None?
    ensures AttemptAfter(args, mocha, events).stderr == StderrText(events)
    ensures AttemptAfter(args, mocha, events).stdout == StdoutText(events)
  {
    if events != [] {
      var pre := events[..|events| - 1];
      assert AttemptAfter(args, mocha, pre).thrown.None?;
      CapturedOutput(args, mocha, pre);
    }
  }

  /** A non-zero exit reports the command line, the code and everything captured before it: it is
      logged under mocha and thrown otherwise, and it never settles the attempt. */
  lemma {:induction false} NonZeroExitIsReported(args: seq<string>, mocha: bool, pre: seq<ChildEvent>, code: Option<nat>)
    requires code != Some(0)
    requires AttemptAfter(args, mocha, pre).thrown.None?
    ensures var after := AttemptAfter(args, mocha, pre + [Exit(code)]);
            var message := FailureMessage(args, code, Details(StderrText(pre), StdoutText(pre)));
            && after.settled == AttemptAfter(args, mocha, pre).settled
            && (mocha ==> after.logged == AttemptAfter(args, mocha, pre).logged + [message] && after.thrown.None?)
            && (!mocha ==> after.thrown == Some(message))
  {
    CapturedOutput(args, mocha, pre);
    PrefixOfSnoc(pre, Exit(code));
  }

  /** The details are empty exactly when neither stream produced output. */
  lemma DetailsEmptyWithoutOutput(stderr: string, stdout: string)
    ensures Details(stderr, stdout) == "" <==> stderr == "" && stdout == ""
  {
  }

  lemma BodyEmptyWithoutOutput(stderr: string, stdout: string)
    ensures DetailsBody(stderr, stdout) == "" <==> stderr == "" && stdout == ""
  {
    if stderr != "" {
      assert |DetailsBody(stderr, stdout)| >= |Section("stderr", stderr)| > 0;
    }
  }

  /** Non-empty stderr shows in the details under its heading. */
  lemma DetailsShowStderr(stderr: string, stdout: string)
    requires stderr != ""
    ensures Contains(Details(stderr, stdout), "stderr=\n" + stderr)
  {
    var section := "stderr=\n" + stderr;
    var body := DetailsBody(stderr, stdout);
    assert Section("stderr", stderr) == section;
    ContainsMiddle(if stdout != "" then "\n" else "", section, Section("stdout", stdout));
    ContainsWiden(", details:\n", body, "", section);
    assert Details(stderr, stdout) == ", details:\n" + body + "";
  }

  /** Non-empty stdout shows in the details under its heading, at their end. */
  lemma DetailsShowStdout(stderr: string, stdout: string)
    requires stdout != ""
    ensures EndsWith(Details(stderr, stdout), "stdout=\n" + stdout)
    ensures Contains(Details(stderr, stdout), "stdout=\n" + stdout)
  {
    var section := "stdout=\n" + stdout;
    var front := ", details:\n" + ((if stderr != "" then "\n" else "") + Section("stderr", stderr));
    assert Section("stdout", stdout) == section;
    assert DetailsBody(stderr, stdout) == ((if stderr != "" then "\n" else "") + Section("stderr", stderr)) + section;
    assert Details(stderr, stdout) == front + section;
    ContainsSuffix(front, section);
  }

  // ---------------------------------------------------------------------------------------------
  // Retrying

  /** How retryNpmProcessIfItFails ends, with the number of attempts made. A rejection that follows
      a retry is not passed on: the outer promise chains the retry without a rejection handler, so
      `surfaced` says whether the caller sees it. An attempt that never settles leaves the call
      unsettled. An attempt whose exit handler threw ends the whole process, however its promise
      settled, so nothing after it runs. */
  datatype RetryOutcome =
    | Succeeded(attempts: nat)
    | Failed(reason: string, attempts: nat, surfaced: bool)
    | Unsettled(attempts: nat, last: Attempt)
    | Crashed(attempts: nat, message: string)

  /** retryNpmProcessIfItFails(args, remaining) when `k` attempts were made before it; `runs(j)` is
      what the j-th spawned process emits and `stack` the stack trace of the rejection. */
  function RetryFrom(args: seq<string>, mocha: bool, stack: string, runs: nat -> seq<ChildEvent>, remaining: int, k: nat): RetryOutcome
    requires remaining >= 1
    decreases remaining
  {
    var a := AttemptAfter(args, mocha, runs(k));
    if a.thrown.Some? then Crashed(k + 1, a.thrown.value)
    else match a.settled
    case None => Unsettled(k + 1, a)
    case Some(Resolved) => Succeeded(k + 1)
    case Some(Rejected(reason)) =>
      if remaining - 1 != 0 then RetryFrom(args, mocha, stack, runs, remaining - 1, k + 1)
      else Failed(reason + "\nfailed at " + stack, k + 1, k == 0)
  }

  /** Whether the j-th attempt was rejected without its exit handler throwing. */
  predicate AttemptRejected(args: seq<string>, mocha: bool, runs: nat -> seq<ChildEvent>, j: nat) {
    var a := AttemptAfter(args, mocha, runs(j));
    a.thrown.None? && a.settled.Some? && a.settled.value.Rejected?
  }

  /** At most `remaining` attempts are made; every attempt before the last was rejected; the call
      crashes exactly when the last attempt's exit handler threw, and otherwise succeeds exactly
      when the last attempt resolved; a failure comes after the whole budget and carries the last
      attempt's reason followed by the stack trace. */
  lemma {:induction false} RetryCountdown(args: seq<string>, mocha: bool, stack: string, runs: nat -> seq<ChildEvent>, remaining: int, k: nat)
    requires remaining >= 1
    ensures k + 1 <= RetryFrom(args, mocha, stack, runs, remaining, k).attempts <= k + remaining
    ensures forall j :: k <= j < RetryFrom(args, mocha, stack, runs, remaining, k).attempts - 1 ==> AttemptRejected(args, mocha, runs, j)
    ensures var o := RetryFrom(args, mocha, stack, runs, remaining, k);
            var last := AttemptAfter(args, mocha, runs(o.attempts - 1));
            && (o.Crashed? <==> last.thrown.Some?)
            && (o.Crashed? ==> o.message == last.thrown.value)
            && (o.Succeeded? <==> last.thrown.None? && last.settled == Some(Resolved))
            && (o.Unsettled? <==> last.thrown.None? && last.settled.None?)
            && (o.Unsettled? ==> o.last == last)
    ensures var o := RetryFrom(args, mocha, stack, runs, remaining, k);
            var last := AttemptAfter(args, mocha, runs(o.attempts - 1));
            o.Failed? ==> && o.attempts == k + remaining && last.thrown.None?
                          && last.settled == Some(Rejected(last.settled.value.reason))
                          && o.reason == last.settled.value.reason + "\nfailed at " + stack
                          && o.surfaced == (o.attempts == 1)
  {
    var a := AttemptAfter(args, mocha, runs(k));
    var o := RetryFrom(args, mocha, stack, runs, remaining, k);
    if a.thrown.None? && a.settled.Some? && a.settled.value.Rejected? && remaining - 1 != 0 {
      RetryCountdown(args, mocha, stack, runs, remaining - 1, k + 1);
      assert o == RetryFrom(args, mocha, stack, runs, remaining - 1, k + 1);
    } else {
      assert o.attempts == k + 1;
    }
  }

  /** A retry follows only an attempt that reported a spawn error: an attempt whose npm exited with
      a non-zero code is never retried. */
  lemma RetryFollowsOnlyASpawnError(args: seq<string>, mocha: bool, stack: string, runs: nat -> seq<ChildEvent>, remaining: int, j: nat)
    requires remaining >= 1
    requires j < RetryFrom(args, mocha, stack, runs, remaining, 0).attempts - 1
    ensures exists i :: 0 <= i < |runs(j)| && runs(j)[i].SpawnError?
  {
    RetryCountdown(args, mocha, stack, runs, remaining, 0);
    assert AttemptRejected(args, mocha, runs, j);
    RejectsOnlyOnSpawnError(args, mocha, runs(j));
  }

  /** With the budget runNpmChildProcess uses there is exactly one attempt, and its rejection
      reaches the caller. */
  lemma {:induction false} NoRetryWithTheDefaultBudget(args: seq<string>, mocha: bool, stack: string, runs: nat -> seq<ChildEvent>)
    ensures var o := RetryFrom(args, mocha, stack, runs, MaxRetryCount, 0);
            o.attempts == 1 && (o.Failed? ==> o.surfaced)
  {
    RetryCountdown(args, mocha, stack, runs, MaxRetryCount, 0);
  }

  // ---------------------------------------------------------------------------------------------
  // The runner as it runs

  /** Builds the details of a failure by successive reassignments, as the exit handler does. */
  method FailureDetails(stderr: string, stdout: string) returns (details: string)
    ensures details == Details(stderr, stdout)
  {
    details := "";
    if |stderr| > 0 {
      details := details + "stderr=\n" + stderr;
    }
    if |stdout| > 0 {
      if |details| > 0 {
        details := "\n" + details;
      }
      details := details + "stdout=\n" + stdout;
    }
    BodyEmptyWithoutOutput(stderr, stdout);
    assert details == DetailsBody(stderr, stdout);
    if |details| > 0 {
      details := ", details:\n" + details;
    }
  }

  /** createNpmChildProcess, with the spawned process replaced by the events it emits. */
  method CreateNpmChildProcess(args: seq<string>, events: seq<ChildEvent>, mocha: bool) returns (a: Attempt)
    ensures a == AttemptAfter(args, mocha, events)
  {
    var settled: Option<Settlement> := None;
    var stderr, stdout := "", "";
    var logged: seq<string> := [];
    var thrown: Option<string> := None;
    var i := 0;
    while i < |events| && thrown.None?
      invariant 0 <= i <= |events|
      invariant Attempt(settled, stderr, stdout, logged, thrown) == AttemptAfter(args, mocha, events[..i])
    {
      match events[i] {
        case StderrData(text) =>
          stderr := stderr + text;
        case StdoutData(text) =>
          stdout := stdout + text;
        case Exit(code) =>
          if code == Some(0) {
            if settled.None? {
              settled := Some(Resolved);
            }
          } else {
            var details := FailureDetails(stderr, stdout);
            var message := FailureMessage(args, code, details);
            if mocha {
              logged := logged + [message];
            } else {
              thrown := Some(message);
            }
          }
        case SpawnError(reason) =>
          if settled.None? {
            settled := Some(Rejected(reason));
          }
      }
      assert events[..i + 1][..i] == events[..i];
      i := i + 1;
    }
    a := Attempt(settled, stderr, stdout, logged, thrown);
    if i < |events| {
      ThrownIsFinal(args, mocha, events[..i], events[i..]);
      assert events[..i] + events[i..] == events;
    } else {
      assert events[..i] == events;
    }
  }

  /** retryNpmProcessIfItFails: a countdown over attempts; `runs(j)` is what the j-th spawned
      process emits. */
  method RetryNpmProcessIfItFails(args: seq<string>, maxRetryCount: int, runs: nat -> seq<ChildEvent>, mocha: bool, stack: string)
    returns (outcome: RetryOutcome)
    requires maxRetryCount >= 1
    ensures outcome == RetryFrom(args, mocha, stack, runs, maxRetryCount, 0)
  {
    var remaining := maxRetryCount;
    var k: nat := 0;
    while true
      invariant remaining >= 1
      invariant RetryFrom(args, mocha, stack, runs, maxRetryCount, 0) == RetryFrom(args, mocha, stack, runs, remaining, k)
      decreases remaining
    {
      var a := CreateNpmChildProcess(args, runs(k), mocha);
      if a.thrown.Some? {
        return Crashed(k + 1, a.thrown.value);
      }
      if a.settled.None? {
        return Unsettled(k + 1, a);
      }
      if a.settled.value.Resolved? {
        return Succeeded(k + 1);
      }
      remaining := remaining - 1;
      if remaining == 0 {
        return Failed(a.settled.value.reason + "\nfailed at " + stack, k + 1, k == 0);
      }
      k := k + 1;
    }
  }

  /** The caller's argument array, which runNpmChildProcess extends in place. */
  class ArgList {
    var items: seq<string>

    constructor (items: seq<string>)
      ensures this.items == items
    {
      this.items := items;
    }

    /** Array.prototype.push. */
    method Push(more: seq<string>)
      modifies this
      ensures items == old(items) + more
    {
      items := items + more;
    }
  }

  /** runNpmChildProcess: appends the three fixed flags, then the cache flag when a cache path is
      given, and runs npm with the default retry budget. */
  method RunNpmChildProcess(args: ArgList, cachePath: Option<string>, runs: nat -> seq<ChildEvent>, mocha: bool, stack: string)
    returns (outcome: RetryOutcome)
    modifies args
    ensures |args.items| == |old(args.items)| + (if Truthy(cachePath) then 4 else 3)
    ensures args.items[..|old(args.items)|] == old(args.items)
    ensures args.items[|old(args.items)|..|old(args.items)| + 3] == [CacheMinFlag, NoOptionalFlag, LogLevelFlag]
    ensures Truthy(cachePath) ==> args.items[|args.items| - 1] == CacheFlagPrefix + cachePath.value
    ensures outcome == RetryFrom(args.items, mocha, stack, runs, MaxRetryCount, 0)
  {
    args.Push([CacheMinFlag, NoOptionalFlag, LogLevelFlag]);
    if Truthy(cachePath) {
      args.Push([CacheFlagPrefix + cachePath.value]);
    }
    outcome := RetryNpmProcessIfItFails(args.items, MaxRetryCount, runs, mocha, stack);
  }
}
