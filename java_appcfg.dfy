/**
 * `AppcfgThread` of the Java driver (AppcfgThread.java): the appcfg
 * command line, and `updateApp`, which uploads an application and, when
 * appcfg reports that another upload is in progress, rolls that one back
 * before trying again.  Running appcfg is the oracle `run`, which maps the
 * number of the run and the command line to the exit status and output.
 */
module JavaAppcfg {
  import opened Wrappers
  import opened Text
  import opened JavaConfig

  /** The number of upload attempts `updateApp` makes at most. */
  const MAX_ROLLBACK_RETRIES: nat := 2

  const APP_CFG: string := "com.google.appengine.tools.admin.AppCfg"

  /** The exception `start` throws when appcfg exits with a non-zero status. */
  function StartFailed(stdout: string): JavaError {
    ClientException("appcfg call failed: " + stdout)
  }

  const ROLLBACK_FAILED: string := "Deployment failed and subsequent rollback failed:"

  /**
   * The appcfg command line: the Java launcher, the tools jar on the class
   * path, the AppCfg class, the application, SDK root, server and e-mail
   * flags, `--passin` (the password goes to standard input), the options,
   * the action and the application directory.
   */
  function AppcfgCommand(javaHome: string, s: ConfigState, options: seq<string>, action: string): seq<string> {
    [javaHome + "/bin/java", "-cp", s.sdkDir + "/lib/appengine-tools-api.jar", APP_CFG,
     "--application=" + s.appId, "--sdk_root=" + s.sdkDir, "--server=" + s.acHostname,
     "--email=" + s.username, "--passin"]
    + options + [action, s.appDir]
  }

  class AppcfgThread {
    const config: Config
    const options: seq<string>
    const action: string

    /** `AppcfgThread(config, action, options)`; `AppcfgThread(config, action)` passes no options. */
    constructor (config: Config, action: string, options: seq<string>)
      ensures this.config == config && this.action == action && this.options == options
    {
      this.config := config;
      this.action := action;
      this.options := options;
    }

    /** `buildArgumentList`, with `javaHome` the `java.home` system property. */
    method BuildArgumentList(javaHome: string) returns (command: seq<string>)
      ensures command == AppcfgCommand(javaHome, config.State(), options, action)
    {
      command := [];
      command := command + [javaHome + "/bin/java"];
      command := command + ["-cp"];
      command := command + [config.sdkDir + "/lib/appengine-tools-api.jar"];
      command := command + [APP_CFG];
      command := command + ["--application=" + config.appId];
      command := command + ["--sdk_root=" + config.sdkDir];
      command := command + ["--server=" + config.acHostname];
      command := command + ["--email=" + config.username];
      command := command + ["--passin"];
      command := command + options;
      command := command + [action];
      command := command + [config.appDir];
    }
  }

  /**
   * The command starts with the launcher, `-cp`, the tools jar and the
   * AppCfg class; then come the application, SDK root, server and e-mail
   * flags and `--passin`, the options in order, the action second to last
   * and the application directory last.  The password is not part of it:
   * the command is the same whatever the password is.
   */
  lemma AppcfgCommandShape(javaHome: string, s: ConfigState, options: seq<string>, action: string, password: string)
    ensures var cmd := AppcfgCommand(javaHome, s, options, action);
            |cmd| == 11 + |options|
            && cmd[..4] == [javaHome + "/bin/java", "-cp", s.sdkDir + "/lib/appengine-tools-api.jar", APP_CFG]
            && cmd[4..9] == ["--application=" + s.appId, "--sdk_root=" + s.sdkDir, "--server=" + s.acHostname,
                             "--email=" + s.username, "--passin"]
            && cmd[9..|cmd| - 2] == options
            && cmd[|cmd| - 2] == action && cmd[|cmd| - 1] == s.appDir
            && AppcfgCommand(javaHome, s.(password := password), options, action) == cmd
  {
    var cmd := AppcfgCommand(javaHome, s, options, action);
    var head := cmd[..9];
    assert cmd == head + options + [action, s.appDir];
    ConcatParts(head, options, [action, s.appDir]);
  }

  /** The update and the rollback command lines differ: one names "update", the other "rollback". */
  lemma UpdateIsNotRollback(javaHome: string, s: ConfigState)
    ensures AppcfgCommand(javaHome, s, [], "update") != AppcfgCommand(javaHome, s, [], "rollback")
  {
    assert AppcfgCommand(javaHome, s, [], "update")[9] == "update";
    assert AppcfgCommand(javaHome, s, [], "rollback")[9] == "rollback";
  }

  // ---------------------------------------------------------------------
  // The conflict message

  const CONFLICT_HEAD: string := "Another transaction by user "
  const CONFLICT_TAIL: string := " is already in progress"

  /**
   * `Pattern.compile(".*Another transaction by user \\D+ is already in
   * progress.*", Pattern.DOTALL).matcher(s).matches()`: the head, a
   * non-empty run of non-digits and the tail occur in that order, with any
   * text, line breaks included, around them.
   */
  predicate ConflictMatches(s: string) {
    exists i, j | 0 <= i < |s| && i + |CONFLICT_HEAD| < j <= |s| ::
      OccursAt(s, CONFLICT_HEAD, i) && OccursAt(s, CONFLICT_TAIL, j)
      && forall k | i + |CONFLICT_HEAD| <= k < j :: !IsDigit(s[k])
  }

  /** Every message that names a user without digits between the head and the tail matches. */
  lemma ConflictMessageMatches(before: string, user: string, after: string)
    requires user != [] && forall k | 0 <= k < |user| :: !IsDigit(user[k])
    ensures ConflictMatches(before + CONFLICT_HEAD + user + CONFLICT_TAIL + after)
  {
    var s := before + CONFLICT_HEAD + user + CONFLICT_TAIL + after;
    var i, j := |before|, |before| + |CONFLICT_HEAD| + |user|;
    assert s[i..i + |CONFLICT_HEAD|] == CONFLICT_HEAD;
    assert s[j..j + |CONFLICT_TAIL|] == CONFLICT_TAIL;
    assert forall k | i + |CONFLICT_HEAD| <= k < j :: s[k] == user[k - i - |CONFLICT_HEAD|];
    assert 0 <= i < |s| && i + |CONFLICT_HEAD| < j <= |s|;
    assert OccursAt(s, CONFLICT_HEAD, i) && OccursAt(s, CONFLICT_TAIL, j)
           && forall k | i + |CONFLICT_HEAD| <= k < j :: !IsDigit(s[k]);
  }

  /** A matching output holds the head and, after it, the tail, so it is not empty. */
  lemma ConflictNeedsHeadAndTail(s: string)
    requires ConflictMatches(s)
    ensures Contains(s, CONFLICT_HEAD) && Contains(s, CONFLICT_TAIL)
    ensures |s| > |CONFLICT_HEAD| + |CONFLICT_TAIL|
  {
    var i, j :| 0 <= i < |s| && i + |CONFLICT_HEAD| < j <= |s|
                && OccursAt(s, CONFLICT_HEAD, i) && OccursAt(s, CONFLICT_TAIL, j)
                && forall k | i + |CONFLICT_HEAD| <= k < j :: !IsDigit(s[k]);
    assert OccursAt(s, CONFLICT_HEAD, i) && OccursAt(s, CONFLICT_TAIL, j);
  }

  // ---------------------------------------------------------------------
  // updateApp

  /**
   * What one run of appcfg gives: whether it exited with status 0, and its
   * output.  The thread merges standard error into standard output
   * (ClientThreadBase.java, line 131), so in the program `stderr` is
   * always empty; the model leaves it free.
   */
  datatype RunOutcome = RunOutcome(exitOk: bool, stdout: string, stderr: string)

  /**
   * The test after a rollback that ran, as written: the condition
   * `rollbackStderr.length() >= 0` always holds, so every rollback counts
   * as failed, and the message repeats the standard output where the
   * standard error was meant.
   */
  function RollbackVerdictAsWritten(rb: RunOutcome): Option<JavaError> {
    if Contains(Lower(rb.stdout), "error") || |rb.stderr| >= 0 then
      Some(ClientException(ROLLBACK_FAILED + rb.stdout + rb.stdout))
    else None
  }

  /**
   * The test after a rollback that ran, as intended: the rollback failed
   * when its output mentions an error or it wrote to standard error, and
   * the message carries both outputs; otherwise `updateApp` tries again.
   */
  function RollbackVerdict(rb: RunOutcome): Option<JavaError> {
    if Contains(Lower(rb.stdout), "error") || |rb.stderr| > 0 then
      Some(ClientException(ROLLBACK_FAILED + rb.stdout + rb.stderr))
    else None
  }

  /** How one pass of the loop ends: `updateApp` is over, or the next attempt follows. */
  datatype Step = Done(result: Result<(), JavaError>) | Retry

  /** How one pass of the loop ends and the appcfg commands it ran, in order. */
  datatype PassOutcome = PassOutcome(step: Step, calls: seq<seq<string>>)

  /**
   * One pass of the loop of `updateApp`, after `n` runs of appcfg, where
   * `update` and `rollback` are the two commands and `verdict` the test
   * after a rollback.  An upload that succeeds ends the loop.  A failed
   * one whose output is empty or does not report a conflict is dropped
   * and the next attempt follows; one that reports a conflict runs a
   * rollback, whose failure to start or whose verdict ends `updateApp`
   * with an exception.
   */
  function Pass(update: seq<string>, rollback: seq<string>, run: (nat, seq<string>) -> RunOutcome,
                verdict: RunOutcome -> Option<JavaError>, n: nat): PassOutcome
  {
    var u := run(n, update);
    if u.exitOk then PassOutcome(Done(Ok(())), [update])
    else if |u.stdout| > 0 && ConflictMatches(u.stdout) then
      var rb := run(n + 1, rollback);
      if !rb.exitOk then PassOutcome(Done(Err(StartFailed(rb.stdout))), [update, rollback])
      else if verdict(rb).Some? then PassOutcome(Done(Err(verdict(rb).value)), [update, rollback])
      else PassOutcome(Retry, [update, rollback])
    else PassOutcome(Retry, [update])
  }

  /**
   * A pass runs the upload and, on a reported conflict, the rollback after
   * it; a pass that runs the rollback ends `updateApp` unless the verdict
   * passes it, and only a successful upload ends it normally.
   */
  lemma PassShape(update: seq<string>, rollback: seq<string>, run: (nat, seq<string>) -> RunOutcome,
                  verdict: RunOutcome -> Option<JavaError>, n: nat)
    ensures var p := Pass(update, rollback, run, verdict, n);
            var u := run(n, update);
            (p.calls == [update] || p.calls == [update, rollback])
            && (p.calls == [update, rollback] <==> !u.exitOk && ConflictMatches(u.stdout))
            && (u.exitOk <==> p.step == Done(Ok(())))
            && (p.step.Done? && p.step.result.Ok? ==> u.exitOk)
            && (p.calls == [update, rollback] && p.step.Retry? ==>
                  run(n + 1, rollback).exitOk && verdict(run(n + 1, rollback)).None?)
  {
    var u := run(n, update);
    if ConflictMatches(u.stdout) {
      ConflictNeedsHeadAndTail(u.stdout);
    }
  }

  /** How `updateApp` ends and the appcfg commands it ran, in order. */
  datatype UpdateOutcome = UpdateOutcome(result: Result<(), JavaError>, calls: seq<seq<string>>)

  /**
   * The rest of `updateApp` with `left` attempts to go, after `n` runs of
   * appcfg: pass after pass until one ends it; no attempts left,
   * `updateApp` returns normally.
   */
  function UpdateFrom(update: seq<string>, rollback: seq<string>, run: (nat, seq<string>) -> RunOutcome,
                      verdict: RunOutcome -> Option<JavaError>, left: nat, n: nat): UpdateOutcome
    decreases left
  {
    if left == 0 then UpdateOutcome(Ok(()), [])
    else
      var p := Pass(update, rollback, run, verdict, n);
      if p.step.Done? then UpdateOutcome(p.step.result, p.calls)
      else
        var rest := UpdateFrom(update, rollback, run, verdict, left - 1, n + |p.calls|);
        UpdateOutcome(rest.result, p.calls + rest.calls)
  }

  /**
   * `updateApp(config, options)`, with the rollback test `verdict`
   * (`RollbackVerdictAsWritten` is the code as written).  Every thread is
   * built without options: the `options` argument is not used.
   */
  method UpdateApp(javaHome: string, config: Config, options: seq<string>,
                   run: (nat, seq<string>) -> RunOutcome, verdict: RunOutcome -> Option<JavaError>)
    returns (r: Result<(), JavaError>, ghost calls: seq<seq<string>>)
    ensures var s := config.State();
            UpdateOutcome(r, calls)
              == UpdateFrom(AppcfgCommand(javaHome, s, [], "update"), AppcfgCommand(javaHome, s, [], "rollback"),
                            run, verdict, MAX_ROLLBACK_RETRIES, 0)
    // The result alone, apart from the ghost trace of commands: what a caller can observe.
    ensures r == UpdateFrom(AppcfgCommand(javaHome, config.State(), [], "update"),
                            AppcfgCommand(javaHome, config.State(), [], "rollback"),
                            run, verdict, MAX_ROLLBACK_RETRIES, 0).result
  {
    ghost var update := AppcfgCommand(javaHome, config.State(), [], "update");
    ghost var rollback := AppcfgCommand(javaHome, config.State(), [], "rollback");
    ghost var whole := UpdateFrom(update, rollback, run, verdict, MAX_ROLLBACK_RETRIES, 0);
    r := Ok(());
    calls := [];
    var n := 0;
    var left := MAX_ROLLBACK_RETRIES;
    ghost var now := whole;
    while left > 0
      invariant n == |calls| && r == Ok(())
      invariant now == UpdateFrom(update, rollback, run, verdict, left, n)
      invariant whole == UpdateOutcome(now.result, calls + now.calls)
    {
      var step, made := Attempt(javaHome, config, run, verdict, n, update, rollback);
      ghost var rest := UpdateFrom(update, rollback, run, verdict, left - 1, n + |made|);
      UpdateFromUnfold(update, rollback, run, verdict, left, n, step, made);
      if step.Done? {
        calls := calls + made;
        r := step.result;
        return;
      }
      SeqAssoc(calls, made, rest.calls);
      calls := calls + made;
      n := n + |made|;
      left := left - 1;
      now := rest;
    }
  }

  /** One step of `UpdateFrom`: the pass that ends the run, or the pass and the rest of the run after it. */
  lemma UpdateFromUnfold(update: seq<string>, rollback: seq<string>, run: (nat, seq<string>) -> RunOutcome,
                         verdict: RunOutcome -> Option<JavaError>, left: nat, n: nat, step: Step, made: seq<seq<string>>)
    requires left > 0 && PassOutcome(step, made) == Pass(update, rollback, run, verdict, n)
    ensures var whole := UpdateFrom(update, rollback, run, verdict, left, n);
            (step.Done? ==> whole == UpdateOutcome(step.result, made))
            && (step.Retry? ==>
                  var rest := UpdateFrom(update, rollback, run, verdict, left - 1, n + |made|);
                  whole == UpdateOutcome(rest.result, made + rest.calls))
  {
  }

  /**
   * One pass of the loop: build and run the update; on a reported
   * conflict, build and run the rollback and apply the verdict.  `made` are
   * the commands run.
   */
  method Attempt(javaHome: string, config: Config, run: (nat, seq<string>) -> RunOutcome,
                 verdict: RunOutcome -> Option<JavaError>, n: nat,
                 ghost update: seq<string>, ghost rollback: seq<string>)
    returns (step: Step, made: seq<seq<string>>)
    requires update == AppcfgCommand(javaHome, config.State(), [], "update")
    requires rollback == AppcfgCommand(javaHome, config.State(), [], "rollback")
    ensures PassOutcome(step, made) == Pass(update, rollback, run, verdict, n)
  {
    var thread := new AppcfgThread(config, "update", []);
    var command := thread.BuildArgumentList(javaHome);
    assert command == update;
    var u := run(n, command);
    made := [command];
    if u.exitOk {
      return Done(Ok(())), made;
    }
    var stdout := u.stdout;
    if |stdout| > 0 && ConflictMatches(stdout) {
      var rollbackThread := new AppcfgThread(config, "rollback", []);
      var rollbackCommand := rollbackThread.BuildArgumentList(javaHome);
      assert rollbackCommand == rollback;
      var rb := run(n + 1, rollbackCommand);
      made := made + [rollbackCommand];
      if !rb.exitOk {
        return Done(Err(StartFailed(rb.stdout))), made;
      }
      var failure := verdict(rb);
      if failure.Some? {
        return Done(Err(failure.value)), made;
      }
    }
    return Retry, made;
  }

  // ---------------------------------------------------------------------
  // Properties of updateApp

  /** The number of times `x` occurs in `xs`. */
  function Occurrences(xs: seq<seq<string>>, x: seq<string>): nat {
    if xs == [] then 0 else (if xs[0] == x then 1 else 0) + Occurrences(xs[1..], x)
  }

  lemma {:induction false} OccurrencesAppend(xs: seq<seq<string>>, ys: seq<seq<string>>, x: seq<string>)
    ensures Occurrences(xs + ys, x) == Occurrences(xs, x) + Occurrences(ys, x)
  {
    if xs == [] {
      assert xs + ys == ys;
    } else {
      assert (xs + ys)[1..] == xs[1..] + ys;
      OccurrencesAppend(xs[1..], ys, x);
    }
  }

  /** A pass holds one upload. */
  lemma OccurrencesInPass(update: seq<string>, rollback: seq<string>)
    requires update != rollback
    ensures Occurrences([update], update) == 1 && Occurrences([update, rollback], update) == 1
  {
    var one: seq<seq<string>> := [update];
    var two: seq<seq<string>> := [update, rollback];
    var last: seq<seq<string>> := [rollback];
    assert one[1..] == [] && two[1..] == last && last[1..] == [];
  }

  /**
   * `updateApp` makes at least one upload and at most `left`, and at most
   * two runs per attempt.
   */
  lemma {:induction false} UpdateFromAttempts(update: seq<string>, rollback: seq<string>, run: (nat, seq<string>) -> RunOutcome,
                                              verdict: RunOutcome -> Option<JavaError>, left: nat, n: nat)
    requires update != rollback
    ensures var o := UpdateFrom(update, rollback, run, verdict, left, n);
            (left > 0 ==> 1 <= Occurrences(o.calls, update)) && Occurrences(o.calls, update) <= left
            && |o.calls| <= 2 * left
    decreases left
  {
    if left > 0 {
      var o := UpdateFrom(update, rollback, run, verdict, left, n);
      var pre := Pass(update, rollback, run, verdict, n).calls;
      PassShape(update, rollback, run, verdict, n);
      OccurrencesInPass(update, rollback);
      if Pass(update, rollback, run, verdict, n).step.Retry? {
        var rest := UpdateFrom(update, rollback, run, verdict, left - 1, n + |pre|);
        UpdateFromAttempts(update, rollback, run, verdict, left - 1, n + |pre|);
        OccurrencesAppend(pre, rest.calls, update);
      }
    }
  }

  /** Every command run is the upload, or the rollback right after an upload. */
  predicate Paired(calls: seq<seq<string>>, update: seq<string>, rollback: seq<string>) {
    forall k | 0 <= k < |calls| :: calls[k] == update || (calls[k] == rollback && k > 0 && calls[k - 1] == update)
  }

  /** `updateApp` runs only the two commands, and every rollback right after an upload. */
  lemma {:induction false} UpdateFromPairs(update: seq<string>, rollback: seq<string>, run: (nat, seq<string>) -> RunOutcome,
                                           verdict: RunOutcome -> Option<JavaError>, left: nat, n: nat)
    requires update != rollback
    ensures Paired(UpdateFrom(update, rollback, run, verdict, left, n).calls, update, rollback)
    decreases left
  {
    if left > 0 {
      var o := UpdateFrom(update, rollback, run, verdict, left, n);
      var p := Pass(update, rollback, run, verdict, n);
      var pre, m := p.calls, |p.calls|;
      PassShape(update, rollback, run, verdict, n);
      if p.step.Retry? {
        var rest := UpdateFrom(update, rollback, run, verdict, left - 1, n + m);
        UpdateFromPairs(update, rollback, run, verdict, left - 1, n + m);
        assert o.calls == pre + rest.calls;
        forall k | 0 <= k < |o.calls|
          ensures o.calls[k] == update || (o.calls[k] == rollback && k > 0 && o.calls[k - 1] == update)
        {
          if k < m {
            assert pre == [update] || pre == [update, rollback];
            assert o.calls[k] == pre[k];
            assert k > 0 ==> o.calls[k - 1] == pre[k - 1];
          } else {
            var j := k - m;
            assert o.calls[k] == rest.calls[j];
            assert rest.calls[j] == update || (rest.calls[j] == rollback && j > 0 && rest.calls[j - 1] == update);
            if j > 0 {
              assert o.calls[k - 1] == rest.calls[j - 1];
            }
          }
        }
      } else {
        assert o.calls == pre;
      }
    }
  }

  /** An upload that succeeds, the `k`-th run after `n` runs, is the last command run, and the outcome is normal. */
  predicate StopsAtSuccess(o: UpdateOutcome, update: seq<string>, run: (nat, seq<string>) -> RunOutcome, n: nat) {
    forall k | 0 <= k < |o.calls| && o.calls[k] == update && run(n + k, update).exitOk ::
      k == |o.calls| - 1 && o.result.Ok?
  }

  /** Once an upload succeeds nothing more is run, and `updateApp` returns normally. */
  lemma {:induction false} UpdateFromStopsAtSuccess(update: seq<string>, rollback: seq<string>, run: (nat, seq<string>) -> RunOutcome,
                                                    verdict: RunOutcome -> Option<JavaError>, left: nat, n: nat)
    requires update != rollback
    ensures StopsAtSuccess(UpdateFrom(update, rollback, run, verdict, left, n), update, run, n)
    decreases left
  {
    if left > 0 {
      var o := UpdateFrom(update, rollback, run, verdict, left, n);
      var p := Pass(update, rollback, run, verdict, n);
      var pre, m := p.calls, |p.calls|;
      PassShape(update, rollback, run, verdict, n);
      if p.step.Retry? {
        var rest := UpdateFrom(update, rollback, run, verdict, left - 1, n + m);
        UpdateFromStopsAtSuccess(update, rollback, run, verdict, left - 1, n + m);
        assert o.calls == pre + rest.calls && o.result == rest.result;
        forall k | 0 <= k < |o.calls| && o.calls[k] == update && run(n + k, update).exitOk
          ensures k == |o.calls| - 1 && o.result.Ok?
        {
          assert k != 0 && (m == 2 ==> o.calls[1] == rollback);
          var j := k - m;
          assert o.calls[k] == rest.calls[j] && n + k == (n + m) + j;
        }
      } else {
        assert o.calls == pre;
      }
    }
  }

  /**
   * What the caller of `updateApp` can rely on: one to MAX_ROLLBACK_RETRIES
   * uploads, every rollback right after an upload, and nothing run after
   * an upload that succeeded.
   */
  lemma UpdateAppRuns(javaHome: string, s: ConfigState, run: (nat, seq<string>) -> RunOutcome,
                      verdict: RunOutcome -> Option<JavaError>)
    ensures var update, rollback := AppcfgCommand(javaHome, s, [], "update"), AppcfgCommand(javaHome, s, [], "rollback");
            var o := UpdateFrom(update, rollback, run, verdict, MAX_ROLLBACK_RETRIES, 0);
            1 <= Occurrences(o.calls, update) <= MAX_ROLLBACK_RETRIES && |o.calls| <= 2 * MAX_ROLLBACK_RETRIES
            && Paired(o.calls, update, rollback) && StopsAtSuccess(o, update, run, 0)
  {
    var update, rollback := AppcfgCommand(javaHome, s, [], "update"), AppcfgCommand(javaHome, s, [], "rollback");
    UpdateIsNotRollback(javaHome, s);
    UpdateFromAttempts(update, rollback, run, verdict, MAX_ROLLBACK_RETRIES, 0);
    UpdateFromPairs(update, rollback, run, verdict, MAX_ROLLBACK_RETRIES, 0);
    UpdateFromStopsAtSuccess(update, rollback, run, verdict, MAX_ROLLBACK_RETRIES, 0);
  }

  /** Uploads that all fail without reporting a conflict use up every attempt, and `updateApp` returns normally. */
  lemma {:induction false} UpdateFromExhausted(update: seq<string>, rollback: seq<string>, run: (nat, seq<string>) -> RunOutcome,
                                               verdict: RunOutcome -> Option<JavaError>, left: nat, n: nat)
    requires forall k: nat :: !run(k, update).exitOk && !ConflictMatches(run(k, update).stdout)
    ensures UpdateFrom(update, rollback, run, verdict, left, n) == UpdateOutcome(Ok(()), seq(left, _ => update))
    decreases left
  {
    if left > 0 {
      assert !run(n, update).exitOk && !ConflictMatches(run(n, update).stdout);
      UpdateFromExhausted(update, rollback, run, verdict, left - 1, n + 1);
      assert [update] + seq(left - 1, _ => update) == seq(left, _ => update);
    }
  }

  /**
   * As written, a reported conflict always ends `updateApp` with an
   * exception: whatever the rollback printed, it counts as failed, and the
   * rollback is the last command run.
   */
  lemma {:induction false} AsWrittenConflictThrows(update: seq<string>, rollback: seq<string>, run: (nat, seq<string>) -> RunOutcome,
                                                   left: nat, n: nat)
    requires update != rollback
    ensures var o := UpdateFrom(update, rollback, run, RollbackVerdictAsWritten, left, n);
            rollback in o.calls ==> o.result.Err? && o.calls[|o.calls| - 1] == rollback
    decreases left
  {
    if left > 0 {
      var p := Pass(update, rollback, run, RollbackVerdictAsWritten, n);
      PassShape(update, rollback, run, RollbackVerdictAsWritten, n);
      UpdateFromUnfold(update, rollback, run, RollbackVerdictAsWritten, left, n, p.step, p.calls);
      var o := UpdateFrom(update, rollback, run, RollbackVerdictAsWritten, left, n);
      if p.step.Retry? {
        assert p.calls == [update];
        var rest := UpdateFrom(update, rollback, run, RollbackVerdictAsWritten, left - 1, n + 1);
        AsWrittenConflictThrows(update, rollback, run, left - 1, n + 1);
        assert o.calls == [update] + rest.calls;
        if rollback in o.calls {
          assert rollback in rest.calls;
        }
      } else {
        assert o == UpdateOutcome(p.step.result, p.calls);
      }
    }
  }

  /** A rollback that printed nothing and exited cleanly, for which the two verdicts differ. */
  lemma CleanRollbackVerdicts()
    ensures RollbackVerdictAsWritten(RunOutcome(true, "", "")) == Some(ClientException(ROLLBACK_FAILED))
    ensures RollbackVerdict(RunOutcome(true, "", "")) == None
  {
    assert !Contains(Lower(""), "error");
    assert ROLLBACK_FAILED + "" + "" == ROLLBACK_FAILED;
  }

  /** As written, what the rollback wrote to standard error never reaches the message. */
  lemma AsWrittenMessageDropsStderr(stdout: string, stderr: string)
    ensures RollbackVerdictAsWritten(RunOutcome(true, stdout, stderr)) == Some(ClientException(ROLLBACK_FAILED + stdout + stdout))
  {
  }

  /**
   * The intended verdict: a rollback failed exactly when its output
   * mentions an error (in any case) or it wrote to standard error, and the
   * message then carries both outputs.
   */
  lemma RollbackVerdictMeaning(rb: RunOutcome)
    ensures RollbackVerdict(rb).None? <==> !Contains(Lower(rb.stdout), "error") && rb.stderr == ""
    ensures RollbackVerdict(rb).Some? ==> RollbackVerdict(rb).value == ClientException(ROLLBACK_FAILED + rb.stdout + rb.stderr)
  {
  }

  /**
   * With the intended verdict, a conflict followed by a clean rollback
   * leads to the next attempt, two runs later: for the first upload, at
   * least, a rollback makes room for a retry.
   */
  lemma CleanRollbackRetries(update: seq<string>, rollback: seq<string>, run: (nat, seq<string>) -> RunOutcome,
                             left: nat, n: nat)
    requires left > 0
    requires var u := run(n, update); !u.exitOk && ConflictMatches(u.stdout)
    requires var rb := run(n + 1, rollback); rb.exitOk && !Contains(Lower(rb.stdout), "error") && rb.stderr == ""
    ensures var rest := UpdateFrom(update, rollback, run, RollbackVerdict, left - 1, n + 2);
            UpdateFrom(update, rollback, run, RollbackVerdict, left, n)
              == UpdateOutcome(rest.result, [update, rollback] + rest.calls)
  {
    ConflictNeedsHeadAndTail(run(n, update).stdout);
  }
}
