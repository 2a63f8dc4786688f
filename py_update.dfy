/**
 * Properties of the retry loop of `update_app` (gaedriver.py, lines
 * 369-417): which processes it starts, and how it ends.
 */
module PyUpdate {
  import opened Wrappers
  import opened Text
  import opened PyConfig
  import opened PyAppcfg

  /** The loop run with an update whose command line could be built. */
  function Run(upd: Call, rb: Call, user: string, retries: int, respond: (nat, Call) -> string, n: nat,
               last: (Option<string>, Option<string>)): UpdateRun
  {
    UpdateFrom(Ok(upd), rb, user, retries, respond, n, last)
  }

  lemma ParityShift(i: int)
    ensures (i - 2) % 2 == i % 2
  {
  }

  /**
   * The processes the loop starts alternate between the update and the
   * rollback, starting with an update; there are at most two per attempt
   * and, when any attempt is left, at least one.
   */
  lemma {:induction false} UpdateLoopCalls(upd: Call, rb: Call, user: string, retries: int,
                                           respond: (nat, Call) -> string, n: nat,
                                           last: (Option<string>, Option<string>))
    ensures var calls := Run(upd, rb, user, retries, respond, n, last).calls;
            (retries <= 0 ==> calls == [])
            && (retries > 0 ==> 1 <= |calls| <= 2 * retries)
            && forall i | 0 <= i < |calls| :: calls[i] == if i % 2 == 0 then upd else rb
    decreases retries
  {
    if retries > 0 {
      var out := respond(n, upd);
      if ConflictReported(user, out) && !Contains(respond(n + 1, rb), "Error") {
        var rest := Run(upd, rb, user, retries - 1, respond, n + 2, (Some(respond(n + 1, rb)), None));
        UpdateLoopCalls(upd, rb, user, retries - 1, respond, n + 2, (Some(respond(n + 1, rb)), None));
        var calls := [upd, rb] + rest.calls;
        assert Run(upd, rb, user, retries, respond, n, last).calls == calls;
        forall i | 2 <= i < |calls|
          ensures calls[i] == if i % 2 == 0 then upd else rb
        {
          assert calls[i] == rest.calls[i - 2];
          ParityShift(i);
        }
      }
    }
  }

  /**
   * A run with attempts left that ends without error ends with the
   * output of the last process it started; stderr is never kept apart.
   */
  lemma {:induction false} UpdateLoopOutput(upd: Call, rb: Call, user: string, retries: int,
                                            respond: (nat, Call) -> string, n: nat,
                                            last: (Option<string>, Option<string>))
    requires retries > 0
    ensures var run := Run(upd, rb, user, retries, respond, n, last);
            run.result.Ok? ==>
              run.result.value.1 == None
              && |run.calls| >= 1
              && run.result.value.0 == Some(respond(n + |run.calls| - 1, run.calls[|run.calls| - 1]))
    decreases retries
  {
    var out := respond(n, upd);
    var rbOut := respond(n + 1, rb);
    if !ConflictReported(user, out) {
      if Contains(out, "Error") {
        UpdateLoopUpdateFails(upd, rb, user, retries, respond, n, last);
      } else {
        UpdateLoopClean(upd, rb, user, retries, respond, n, last);
      }
    } else if Contains(rbOut, "Error") {
      UpdateLoopRollbackFails(upd, rb, user, retries, respond, n, last);
    } else {
      var rest := Run(upd, rb, user, retries - 1, respond, n + 2, (Some(rbOut), None));
      var calls := [upd, rb] + rest.calls;
      assert Run(upd, rb, user, retries, respond, n, last) == UpdateRun(rest.result, calls);
      if retries - 1 > 0 {
        UpdateLoopOutput(upd, rb, user, retries - 1, respond, n + 2, (Some(rbOut), None));
        if rest.result.Ok? {
          assert calls[|calls| - 1] == rest.calls[|rest.calls| - 1];
        }
      } else {
        assert rest == UpdateRun(Ok((Some(rbOut), None)), []);
      }
    }
  }

  /**
   * An update whose output neither reports an open transaction nor
   * mentions "Error" ends the loop successfully after one process.
   */
  lemma UpdateLoopClean(upd: Call, rb: Call, user: string, retries: int,
                        respond: (nat, Call) -> string, n: nat,
                        last: (Option<string>, Option<string>))
    requires retries > 0
    requires !ConflictReported(user, respond(n, upd)) && !Contains(respond(n, upd), "Error")
    ensures Run(upd, rb, user, retries, respond, n, last) == UpdateRun(Ok((Some(respond(n, upd)), None)), [upd])
  {
  }

  /**
   * An update whose output mentions "Error" without reporting an open
   * transaction raises AppcfgError after one process.
   */
  lemma UpdateLoopUpdateFails(upd: Call, rb: Call, user: string, retries: int,
                              respond: (nat, Call) -> string, n: nat,
                              last: (Option<string>, Option<string>))
    requires retries > 0
    requires !ConflictReported(user, respond(n, upd)) && Contains(respond(n, upd), "Error")
    ensures Run(upd, rb, user, retries, respond, n, last)
            == UpdateRun(Err(AppcfgError("Could not update : " + respond(n, upd))), [upd])
  {
  }

  /**
   * A rollback whose output mentions "Error" raises AppcfgError after
   * the update and the rollback.
   */
  lemma UpdateLoopRollbackFails(upd: Call, rb: Call, user: string, retries: int,
                                respond: (nat, Call) -> string, n: nat,
                                last: (Option<string>, Option<string>))
    requires retries > 0
    requires ConflictReported(user, respond(n, upd)) && Contains(respond(n + 1, rb), "Error")
    ensures Run(upd, rb, user, retries, respond, n, last)
            == UpdateRun(Err(AppcfgError("Could not rollback: " + respond(n + 1, rb))), [upd, rb])
  {
  }

  /**
   * The `k` updates from process `n` on all report an open transaction and
   * the rollback after each is clean.
   */
  predicate AllRolledBack(upd: Call, rb: Call, user: string, respond: (nat, Call) -> string, n: nat, k: int)
    decreases k
  {
    k <= 0
    || (ConflictReported(user, respond(n, upd)) && !Contains(respond(n + 1, rb), "Error")
        && AllRolledBack(upd, rb, user, respond, n + 2, k - 1))
  }

  /**
   * When every update reports an open transaction and every rollback is
   * clean, the loop gives up without an error after `retries` rounds of
   * update and rollback, returning the output of the last rollback.
   */
  lemma {:induction false} UpdateLoopExhausted(upd: Call, rb: Call, user: string, retries: int,
                                               respond: (nat, Call) -> string, n: nat,
                                               last: (Option<string>, Option<string>))
    requires retries > 0
    requires AllRolledBack(upd, rb, user, respond, n, retries)
    ensures var run := Run(upd, rb, user, retries, respond, n, last);
            run.result == Ok((Some(respond(n + 2 * retries - 1, rb)), None))
            && |run.calls| == 2 * retries
    decreases retries
  {
    var rbOut := respond(n + 1, rb);
    var rest := Run(upd, rb, user, retries - 1, respond, n + 2, (Some(rbOut), None));
    assert Run(upd, rb, user, retries, respond, n, last) == UpdateRun(rest.result, [upd, rb] + rest.calls);
    if retries > 1 {
      UpdateLoopExhausted(upd, rb, user, retries - 1, respond, n + 2, (Some(rbOut), None));
      assert n + 2 + 2 * (retries - 1) - 1 == n + 2 * retries - 1;
    } else {
      assert rest == UpdateRun(Ok((Some(rbOut), None)), []);
    }
  }

  /**
   * With no attempt left the loop starts nothing and returns the output
   * it was given: `update_app` with `rollback_retries <= 0` returns
   * `(None, None)` after its configuration check.
   */
  lemma UpdateAppNoRetries(c: Config, options: seq<string>, retries: int, respond: (nat, Call) -> string, n: nat)
    requires retries <= 0
    ensures var run := UpdateAppRun(c, options, retries, respond, n);
            run.calls == []
            && run.result == (if CheckRequired(c, UPDATE_APP_REQUIRED).Err?
                              then Err(CheckRequired(c, UPDATE_APP_REQUIRED).error)
                              else Ok((None, None)))
  {
  }

  /**
   * A configuration without app directory or user name is refused with
   * ValueError before any process is started.
   */
  lemma UpdateAppRequires(c: Config, options: seq<string>, retries: int, respond: (nat, Call) -> string, n: nat)
    requires c.appDir == "" || c.username == ""
    ensures var run := UpdateAppRun(c, options, retries, respond, n);
            run.calls == [] && run.result.Err? && run.result.error.ValueError?
  {
    CheckRequiredFirst(c, UPDATE_APP_REQUIRED);
  }
}
