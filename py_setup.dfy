/**
 * `setup_app` and `teardown_app` (gaedriver.py, lines 586-647): deploy the
 * application to a production cluster, or run it on a local
 * dev_appserver, and undo either afterwards.
 */
module PySetup {
  import opened Wrappers
  import opened Text
  import opened PyConfig
  import opened PyFiles
  import opened PyAppcfg
  import opened PyUpdate
  import opened PyDevAppServer

  /** What `setup_app` returns: nothing for a cluster, the thread for dev_appserver. */
  datatype AppToken = NoToken | Thread(thread: DevAppServerThread)

  /** The processes a sequence of steps started and how the sequence ended. */
  datatype Steps = Steps(result: Result<(), Error>, calls: seq<Call>)

  /** Whether the configuration names a production cluster rather than a dev_appserver. */
  predicate Production(c: Config) {
    !StartsWith(c.clusterHostname, LOCALHOST)
  }

  /**
   * `assert 'error' not in stdout.lower(), stdout`: AssertionError when the
   * output mentions "error" in any case; AttributeError when there is no
   * output at all.
   */
  function CheckOutput(out: Option<string>): (r: Result<(), Error>)
    ensures r.Ok? <==> out.Some? && !Contains(Lower(out.value), "error")
    ensures out.None? ==> r == Err(AttributeError("lower"))
    ensures out.Some? && r.Err? ==> r.error == AssertionError
  {
    if out.None? then Err(AttributeError("lower"))
    else if Contains(Lower(out.value), "error") then Err(AssertionError)
    else Ok(())
  }

  /** The output check after a backend `start` or `stop`, which tolerates "is already <state>". */
  function CheckStateChange(out: string, already: string): (r: Result<(), Error>)
    ensures r.Ok? <==> Contains(out, already) || !Contains(Lower(out), "error")
  {
    if Contains(out, already) then Ok(()) else CheckOutput(Some(out))
  }

  /** The appcfg call for `action` on the configured backend, or the error building it raises. */
  function BackendCall(c: Config, action: string): Result<Call, Error> {
    var argv := AppcfgArgv(c, action, [], Some([c.backendId]));
    if argv.Err? then Err(argv.error) else Ok(Call(argv.value, c.password))
  }

  /**
   * `setup_app` for a production cluster with `n` processes started before:
   * backends.yaml aside, the update, its output check and, for a backend,
   * the `start` and its output check.
   */
  function SetupRun(c: Config, respond: (nat, Call) -> string, n: nat): Steps {
    SetupAfter(c, UpdateAppRun(c, [], MAX_ROLLBACK_RETRIES, respond, n), respond, n)
  }

  /** The steps of `setup_app` after the update, which ran as `upd`. */
  function SetupAfter(c: Config, upd: UpdateRun, respond: (nat, Call) -> string, n: nat): Steps {
    if upd.result.Err? then Steps(Err(upd.result.error), upd.calls)
    else
      var chk := CheckOutput(upd.result.value.0);
      if chk.Err? then Steps(Err(chk.error), upd.calls)
      else if c.backendId == "" then Steps(Ok(()), upd.calls)
      else
        var st := BackendCall(c, "start");
        if st.Err? then Steps(Err(st.error), upd.calls)
        else Steps(CheckStateChange(respond(n + |upd.calls|, st.value), "is already started"), upd.calls + [st.value])
  }

  /**
   * `teardown_app` for a production backend with `n` processes started
   * before: `stop` and its check, then `delete` and its check.
   */
  function TeardownRun(c: Config, respond: (nat, Call) -> string, n: nat): Steps {
    var sp := BackendCall(c, "stop");
    if sp.Err? then Steps(Err(sp.error), [])
    else
      var chk := CheckStateChange(respond(n, sp.value), "is already stopped");
      if chk.Err? then Steps(chk, [sp.value])
      else
        var del := BackendCall(c, "delete");
        if del.Err? then Steps(Err(del.error), [sp.value])
        else Steps(CheckOutput(Some(respond(n + 1, del.value))), [sp.value, del.value])
  }

  /**
   * An update that succeeds with its default two attempts has output, so
   * the `.lower()` in `setup_app` never meets None, and it was built from a
   * configuration that `run_appcfg_with_auth` accepts.
   */
  lemma UpdateOkHasOutput(c: Config, respond: (nat, Call) -> string, n: nat)
    requires UpdateAppRun(c, [], MAX_ROLLBACK_RETRIES, respond, n).result.Ok?
    ensures UpdateAppRun(c, [], MAX_ROLLBACK_RETRIES, respond, n).result.value.0.Some?
    ensures CheckRequired(c, RUN_APPCFG_REQUIRED).Ok?
  {
    var upd := UpdateCall(c, []);
    assert upd.Ok?;
    UpdateLoopOutput(upd.value, RollbackCall(c, []), ShortUsername(c.username), MAX_ROLLBACK_RETRIES,
                     respond, n, (None, None));
  }

  /** `setup_app` on a production cluster never fails with AttributeError from a missing output. */
  lemma SetupRunErrors(c: Config, respond: (nat, Call) -> string, n: nat)
    ensures var s := SetupRun(c, respond, n);
            var upd := UpdateAppRun(c, [], MAX_ROLLBACK_RETRIES, respond, n);
            s.result != Err(AttributeError("lower"))
            && (upd.result.Err? ==> s == Steps(Err(upd.result.error), upd.calls))
            && (s.result.Ok? ==> upd.result.Ok? && !Contains(Lower(upd.result.value.0.value), "error"))
  {
    var upd := UpdateAppRun(c, [], MAX_ROLLBACK_RETRIES, respond, n);
    if upd.result.Ok? {
      UpdateOkHasOutput(c, respond, n);
      if c.backendId != "" {
        var st := BackendCall(c, "start");
        assert st.Ok?;
      }
    } else {
      UpdateAppErrorNotLower(c, respond, n);
    }
  }

  /** The errors `update_app` raises are never the AttributeError of a missing output. */
  lemma UpdateAppErrorNotLower(c: Config, respond: (nat, Call) -> string, n: nat)
    requires UpdateAppRun(c, [], MAX_ROLLBACK_RETRIES, respond, n).result.Err?
    ensures UpdateAppRun(c, [], MAX_ROLLBACK_RETRIES, respond, n).result.error != AttributeError("lower")
  {
    var chk := CheckRequired(c, UPDATE_APP_REQUIRED);
    if chk.Err? {
      CheckRequiredFirst(c, UPDATE_APP_REQUIRED);
    } else {
      var upd := UpdateCall(c, []);
      if upd.Err? {
        CheckRequiredFirst(c, RUN_APPCFG_REQUIRED);
      }
    }
  }

  /**
   * A successful production setup of a backend ends with the `start` of the
   * backend, after the update's processes.
   */
  lemma SetupRunStartsBackend(c: Config, respond: (nat, Call) -> string, n: nat)
    requires SetupRun(c, respond, n).result.Ok? && c.backendId != ""
    ensures var s := SetupRun(c, respond, n);
            var upd := UpdateAppRun(c, [], MAX_ROLLBACK_RETRIES, respond, n);
            BackendCall(c, "start").Ok? && s.calls == upd.calls + [BackendCall(c, "start").value]
  {
    UpdateOkHasOutput(c, respond, n);
  }

  /** A successful teardown of a backend stops it, then deletes it. */
  lemma TeardownRunCalls(c: Config, respond: (nat, Call) -> string, n: nat)
    requires TeardownRun(c, respond, n).result.Ok?
    ensures TeardownRun(c, respond, n).calls == [BackendCall(c, "stop").value, BackendCall(c, "delete").value]
  {
  }

  /**
   * `setup_app`: on a production cluster write backends.yaml for a backend,
   * update the application, check the output and start the backend; on a
   * local cluster start a dev_appserver thread.
   */
  method SetupApp(c: Config, fs: FileSystem, procs: Processes, os: ProcessTable, newPid: int)
    returns (r: Result<AppToken, Error>)
    modifies fs, procs, os
    ensures Production(c) ==>
              var s := SetupRun(c, procs.respond, |old(procs.calls)|);
              r == (if s.result.Ok? then Ok(NoToken) else Err(s.result.error))
              && procs.calls == old(procs.calls) + s.calls
              && fs.files == (if c.backendId != "" then CreatedBackendsFiles(old(fs.files), c) else old(fs.files))
              && os.spawned == old(os.spawned)
    ensures !Production(c) ==>
              var chk := CheckRequired(c, DEV_APPSERVER_REQUIRED);
              var want := ReplacedFiles(old(fs.files), AppYamlPath(c.appDir), AppYamlBackupPath(c.appDir), c.appId);
              procs.calls == old(procs.calls)
              && (chk.Err? ==> r == Err(chk.error) && fs.files == old(fs.files) && os.spawned == old(os.spawned))
              && (chk.Ok? && want.Err? ==> r == Err(want.error) && fs.files == old(fs.files)
                                           && os.spawned == old(os.spawned))
              && (chk.Ok? && want.Ok? ==>
                    r.Ok? && r.value.Thread? && fresh(r.value.thread)
                    && r.value.thread.config == c && fs.files == want.value
                    && r.value.thread.options == [] && r.value.thread.clearDatastore
                    && (r.value.thread.GetArgv().Ok? ==>
                          r.value.thread.pid == Some(newPid)
                          && os.spawned == old(os.spawned) + [r.value.thread.GetArgv().value])
                    && (r.value.thread.GetArgv().Err? ==>
                          r.value.thread.pid == None && os.spawned == old(os.spawned)))
    ensures os.signals == old(os.signals)
  {
    var cluster := IsClusterAppserver(PyStr(c.clusterHostname));
    if cluster.value {
      r := SetupProduction(c, fs, procs);
    } else {
      var t := NewDevAppServerThread(c, None, true);
      if t.Err? {
        return Err(t.error);
      }
      var started := t.value.Start(fs, os, newPid);
      if started.Err? {
        return Err(started.error);
      }
      return Ok(Thread(t.value));
    }
  }

  /** The production half of `setup_app`. */
  method SetupProduction(c: Config, fs: FileSystem, procs: Processes) returns (r: Result<AppToken, Error>)
    modifies fs, procs
    ensures var s := SetupRun(c, procs.respond, |old(procs.calls)|);
            r == (if s.result.Ok? then Ok(NoToken) else Err(s.result.error))
            && procs.calls == old(procs.calls) + s.calls
            && fs.files == (if c.backendId != "" then CreatedBackendsFiles(old(fs.files), c) else old(fs.files))
  {
    ghost var start := procs.calls;
    if c.backendId != "" {
      CreateBackendsYaml(fs, c);
    }
    var upd := UpdateApp(c, [], MAX_ROLLBACK_RETRIES, procs);
    r := FinishSetup(c, upd, procs, UpdateAppRun(c, [], MAX_ROLLBACK_RETRIES, procs.respond, |start|), start);
  }

  /**
   * The production half of `setup_app` after the update, which ran as
   * `run` after the processes `start`: check its output and start the
   * backend, if any.
   */
  method FinishSetup(c: Config, upd: Result<(Option<string>, Option<string>), Error>, procs: Processes,
                     ghost run: UpdateRun, ghost start: seq<Call>)
    returns (r: Result<AppToken, Error>)
    requires upd == run.result && procs.calls == start + run.calls
    modifies procs
    ensures var s := SetupAfter(c, run, procs.respond, |start|);
            r == (if s.result.Ok? then Ok(NoToken) else Err(s.result.error))
            && procs.calls == start + s.calls
  {
    if upd.Err? {
      return Err(upd.error);
    }
    var chk := CheckOutput(upd.value.0);
    if chk.Err? {
      return Err(chk.error);
    }
    if c.backendId != "" {
      var ok := StartBackend(c, procs);
      if BackendCall(c, "start").Ok? {
        SeqAssoc(start, run.calls, [BackendCall(c, "start").value]);
      }
      if ok.Err? {
        return Err(ok.error);
      }
    }
    return Ok(NoToken);
  }

  /** The backend `start` of `setup_app` and the check of its output. */
  method StartBackend(c: Config, procs: Processes) returns (r: Result<(), Error>)
    modifies procs
    ensures var st := BackendCall(c, "start");
            (st.Err? ==> r == Err(st.error) && procs.calls == old(procs.calls))
            && (st.Ok? ==> procs.calls == old(procs.calls) + [st.value]
                           && r == CheckStateChange(procs.respond(|old(procs.calls)|, st.value), "is already started"))
  {
    var args := new PyList([c.backendId]);
    var st := RunAppcfgWithAuth(c, "start", [], args, procs);
    if st.Err? {
      return Err(st.error);
    }
    r := CheckStateChange(st.value.0, "is already started");
  }

  /**
   * `teardown_app`: on a production cluster stop and delete the backend and
   * restore backends.yaml; on a local cluster stop the dev_appserver thread,
   * which must then be the token (None has no `stop`).
   */
  method TeardownApp(c: Config, token: AppToken, fs: FileSystem, procs: Processes, os: ProcessTable)
    returns (r: Result<(), Error>)
    modifies fs, procs, os
    ensures Production(c) && c.backendId == "" ==>
              r == Ok(()) && fs.files == old(fs.files) && procs.calls == old(procs.calls)
              && os.signals == old(os.signals)
    ensures Production(c) && c.backendId != "" ==>
              var s := TeardownRun(c, procs.respond, |old(procs.calls)|);
              r == s.result && procs.calls == old(procs.calls) + s.calls
              && fs.files == (if s.result.Ok? then RestoredBackendsFiles(old(fs.files), c) else old(fs.files))
              && os.signals == old(os.signals)
    ensures !Production(c) && token.NoToken? ==>
              r == Err(AttributeError("stop")) && fs.files == old(fs.files) && os.signals == old(os.signals)
    ensures !Production(c) && token.Thread? ==>
              var t := token.thread;
              var want := RestoredFiles(old(fs.files), t.appYamlPath, t.appYamlBakPath);
              fs.files == want.0 && (r.Err? <==> want.1.Some?) && (r.Err? ==> r.error == want.1.value)
              && os.signals == old(os.signals)
                               + (if t.pid.Some? && t.pid.value != 0 then [(t.pid.value, SIGKILL)] else [])
              && procs.calls == old(procs.calls)
    ensures os.spawned == old(os.spawned)
  {
    var cluster := IsClusterAppserver(PyStr(c.clusterHostname));
    if cluster.value {
      if c.backendId != "" {
        r := TeardownBackend(c, fs, procs);
      } else {
        r := Ok(());
      }
    } else if token.NoToken? {
      r := Err(AttributeError("stop"));
    } else {
      var e := token.thread.Stop(fs, os);
      r := if e.Some? then Err(e.value) else Ok(());
    }
  }

  /** The backend half of `teardown_app`. */
  method TeardownBackend(c: Config, fs: FileSystem, procs: Processes) returns (r: Result<(), Error>)
    modifies fs, procs
    ensures var s := TeardownRun(c, procs.respond, |old(procs.calls)|);
            r == s.result && procs.calls == old(procs.calls) + s.calls
            && fs.files == (if s.result.Ok? then RestoredBackendsFiles(old(fs.files), c) else old(fs.files))
  {
    var stopArgs := new PyList([c.backendId]);
    var sp := RunAppcfgWithAuth(c, "stop", [], stopArgs, procs);
    if sp.Err? {
      return Err(sp.error);
    }
    r := CheckStateChange(sp.value.0, "is already stopped");
    if r.Err? {
      return;
    }
    var delArgs := new PyList([c.backendId]);
    var del := RunAppcfgWithAuth(c, "delete", [], delArgs, procs);
    if del.Err? {
      // the configuration passed the same check for `stop`
      assert false;
    }
    r := CheckOutput(Some(del.value.0));
    if r.Err? {
      return;
    }
    RestoreBackendsYaml(fs, c);
  }
}
