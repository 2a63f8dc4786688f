/**
 * The Python driver's use of the appcfg tool: `run_appcfg_with_auth`, which
 * builds the appcfg command line from a configuration and feeds it the
 * password, and `update_app`, which uploads an application and, when
 * appcfg reports a transaction left open by an earlier upload, rolls it
 * back and tries again a bounded number of times.
 *
 * Started processes are represented by `Processes`: it records every
 * command line and standard input it is given, and answers with the output
 * an outside function assigns to the n-th call.
 */
module PyAppcfg {
  import opened Wrappers
  import opened Text
  import opened PyConfig
  import opened PyFiles

  /** One started process: its command line and what was written to its standard input. */
  datatype Call = Call(argv: seq<string>, input: string)

  /** The processes the driver starts, and what they print. */
  class Processes {
    var calls: seq<Call>
    const respond: (nat, Call) -> string

    constructor (respond: (nat, Call) -> string)
      ensures calls == [] && this.respond == respond
    {
      calls := [];
      this.respond := respond;
    }

    /**
     * `subprocess.Popen(argv, ...).communicate(input)`: run `argv` with
     * `input` on its standard input and return what it printed.
     */
    method Communicate(argv: seq<string>, input: string) returns (stdout: string)
      modifies this
      ensures calls == old(calls) + [Call(argv, input)]
      ensures stdout == respond(|old(calls)|, Call(argv, input))
    {
      stdout := respond(|calls|, Call(argv, input));
      calls := calls + [Call(argv, input)];
    }
  }

  /** A Python list of strings that the callee may change. */
  class PyList {
    var items: seq<string>

    constructor (items: seq<string>)
      ensures this.items == items
    {
      this.items := items;
    }

    /** `list.remove(x)`: drop the first `x`; ValueError when there is none. */
    method Remove(x: string) returns (r: Result<(), Error>)
      modifies this
      ensures x in old(items) ==> r.Ok? && items == RemoveFirst(old(items), x)
      ensures x !in old(items) ==> r == Err(ValueError("list.remove(x): x not in list")) && items == old(items)
    {
      if x !in items {
        return Err(ValueError("list.remove(x): x not in list"));
      }
      items := RemoveFirst(items, x);
      return Ok(());
    }
  }

  const RUN_APPCFG_REQUIRED: seq<AttrName> := [AppDir, SdkDir, Username, Password]
  const UPDATE_APP_REQUIRED: seq<AttrName> := [AppDir, Username]

  /** The default number of update attempts of `update_app`. */
  const MAX_ROLLBACK_RETRIES: int := 2

  /** Python's message for `x in None`. */
  const NONE_NOT_ITERABLE: string := "argument of type 'NoneType' is not iterable"

  // ---------------------------------------------------------------------
  // The appcfg command line

  /** The fixed start of every appcfg command line. */
  function ArgvHead(c: Config): seq<string> {
    [PathJoin(c.sdkDir, "appcfg.py"), "--no_cookies", "--email=" + c.username, "--passin"]
  }

  /** The flags taken from the configuration, followed by the caller's options. */
  function ArgvFlags(c: Config, options: seq<string>): seq<string> {
    ApplicationFlag(c) + ExtraFlags(c) + ServerFlag(c) + options
  }

  /** `--application=<app_id>` when the app id is set. */
  function ApplicationFlag(c: Config): seq<string> {
    if c.appId != "" then ["--application=" + c.appId] else []
  }

  /** The configured extra flags, split at single spaces. */
  function ExtraFlags(c: Config): seq<string> {
    if c.appcfgFlags != "" then Split(c.appcfgFlags, ' ') else []
  }

  /** `--server=<ac_hostname>` when the admin console hostname is set. */
  function ServerFlag(c: Config): seq<string> {
    if c.acHostname != "" then ["--server=" + c.acHostname] else []
  }

  /** The arguments that end a backend command: the caller's, without the app directory. */
  function BackendArgs(c: Config, args: seq<string>): seq<string> {
    if c.appDir in args then RemoveFirst(args, c.appDir) else args
  }

  /**
   * A backend command drops one occurrence of the app directory from the
   * caller's arguments, and keeps every other argument.
   */
  lemma BackendArgsDropsAppDir(c: Config, args: seq<string>)
    ensures multiset(BackendArgs(c, args)) == multiset(args) - multiset{c.appDir}
  {
    RemoveFirstRemoves(args, c.appDir);
  }

  /**
   * The command line for `action`: for a frontend the action then its
   * arguments; for a backend `backends <app_dir>` first.
   */
  function ArgvFor(c: Config, action: string, options: seq<string>, args: seq<string>): seq<string> {
    ArgvHead(c) + ArgvFlags(c, options) + ActionBlock(c, action, args)
  }

  /** The end of the command line: the action and its arguments. */
  function ActionBlock(c: Config, action: string, args: seq<string>): seq<string> {
    if c.backendId == "" then [action] + args
    else ["backends", c.appDir, action] + BackendArgs(c, args)
  }

  /**
   * The command line `run_appcfg_with_auth` starts, or the error it raises
   * first: a required attribute not set, or, for a backend, no argument
   * list to look the app directory up in.
   */
  function AppcfgArgv(c: Config, action: string, options: seq<string>, args: Option<seq<string>>)
    : Result<seq<string>, Error>
  {
    var chk := CheckRequired(c, RUN_APPCFG_REQUIRED);
    if chk.Err? then Err(chk.error)
    else if c.backendId != "" && args.None? then Err(TypeError(NONE_NOT_ITERABLE))
    else Ok(ArgvFor(c, action, options, args.GetOr([])))
  }

  /** The errors of `run_appcfg_with_auth`, in the order it raises them. */
  lemma AppcfgArgvErrors(c: Config, action: string, options: seq<string>, args: Option<seq<string>>)
    ensures var r := AppcfgArgv(c, action, options, args);
            (r.Ok? <==> CheckRequired(c, RUN_APPCFG_REQUIRED).Ok? && (c.backendId == "" || args.Some?))
            && (r.Ok? ==> r.value == ArgvFor(c, action, options, args.GetOr([])))
    ensures CheckRequired(c, RUN_APPCFG_REQUIRED).Err? ==>
              AppcfgArgv(c, action, options, args) == Err(CheckRequired(c, RUN_APPCFG_REQUIRED).error)
    ensures CheckRequired(c, RUN_APPCFG_REQUIRED).Ok? && c.backendId != "" && args.None? ==>
              AppcfgArgv(c, action, options, args) == Err(TypeError(NONE_NOT_ITERABLE))
    ensures CheckRequired(c, RUN_APPCFG_REQUIRED).Ok? ==>
              c.appDir != "" && c.sdkDir != "" && c.username != "" && c.password != ""
  {
    if CheckRequired(c, RUN_APPCFG_REQUIRED).Ok? {
      assert IsSet(c, RUN_APPCFG_REQUIRED[0]) && IsSet(c, RUN_APPCFG_REQUIRED[1]);
      assert IsSet(c, RUN_APPCFG_REQUIRED[2]) && IsSet(c, RUN_APPCFG_REQUIRED[3]);
    }
  }

  /**
   * How an appcfg command line reads: the tool, the authentication flags,
   * then the configured flags and caller's options, then the action block
   * at the end — `action args` for a frontend, `backends app_dir action
   * args` with the app directory dropped from `args` for a backend.
   */
  lemma ArgvForShape(c: Config, action: string, options: seq<string>, args: seq<string>)
    ensures var argv := ArgvFor(c, action, options, args);
            var tail := if c.backendId == "" then args else BackendArgs(c, args);
            var block := if c.backendId == "" then [action] else ["backends", c.appDir, action];
            var k := |argv| - |tail| - |block|;
            |ArgvHead(c)| + |options| <= k
            && argv[..4] == [PathJoin(c.sdkDir, "appcfg.py"), "--no_cookies", "--email=" + c.username, "--passin"]
            && argv[k - |options|..k] == options
            && argv[k..k + |block|] == block
            && argv[k + |block|..] == tail
  {
    var tail := if c.backendId == "" then args else BackendArgs(c, args);
    var block := if c.backendId == "" then [action] else ["backends", c.appDir, action];
    var flags := ApplicationFlag(c) + ExtraFlags(c) + ServerFlag(c);
    var pre := ArgvHead(c) + flags + options;
    assert ArgvHead(c) + ArgvFlags(c, options) == pre;
    ConcatParts(pre, block, tail);
    ConcatParts(ArgvHead(c), flags, options);
  }

  /**
   * The password reaches appcfg only on its standard input (`--passin`):
   * the command line is the same whatever the password is.
   */
  lemma ArgvPasswordFree(c: Config, action: string, options: seq<string>, args: Option<seq<string>>, p: string)
    requires p != ""
    ensures ArgvFor(c.(password := p), action, options, args.GetOr([])) == ArgvFor(c, action, options, args.GetOr([]))
    ensures c.password != "" ==>
              AppcfgArgv(c.(password := p), action, options, args) == AppcfgArgv(c, action, options, args)
  {
    if c.password != "" {
      var d := c.(password := p);
      forall k | 0 <= k < |RUN_APPCFG_REQUIRED|
        ensures IsSet(c, RUN_APPCFG_REQUIRED[k]) == IsSet(d, RUN_APPCFG_REQUIRED[k])
      {
      }
      CheckRequiredSameSet(c, d, RUN_APPCFG_REQUIRED);
    }
  }

  /** `for flag in items: argv.append(flag)`. */
  method AppendEach(argv: seq<string>, items: seq<string>) returns (r: seq<string>)
    ensures r == argv + items
  {
    r := argv;
    for i := 0 to |items|
      invariant r == argv + items[..i]
    {
      r := r + [items[i]];
    }
    assert items[..|items|] == items;
  }

  /** The part of `run_appcfg_with_auth`'s command line before the action. */
  method BuildArgvPrefix(c: Config, options: seq<string>) returns (argv: seq<string>)
    ensures argv == ArgvHead(c) + ArgvFlags(c, options)
  {
    argv := [PathJoin(c.sdkDir, "appcfg.py")];
    argv := argv + ["--no_cookies"];
    argv := argv + ["--email=" + c.username];
    argv := argv + ["--passin"];
    ghost var head := argv;
    assert head == ArgvHead(c);
    if c.appId != "" {
      argv := argv + ["--application=" + c.appId];
    }
    ghost var withApp := argv;
    if c.appcfgFlags != "" {
      argv := AppendEach(argv, Split(c.appcfgFlags, ' '));
    }
    ghost var withFlags := argv;
    if c.acHostname != "" {
      argv := argv + ["--server=" + c.acHostname];
    }
    ghost var withServer := argv;
    if options != [] {
      argv := argv + options;
    }
    ghost var a, f, s := ApplicationFlag(c), ExtraFlags(c), ServerFlag(c);
    assert withApp == head + a;
    assert withFlags == withApp + f;
    assert withServer == withFlags + s;
    assert argv == withServer + options;
    SeqAssoc(head, a, f);
    SeqAssoc(head, a + f, s);
    SeqAssoc(head, a + f + s, options);
  }

  /**
   * The end of `run_appcfg_with_auth`'s command line, appended to `argv`.
   * For a backend the caller's list loses its first copy of the app
   * directory, and a missing list raises TypeError.
   */
  method AppendActionBlock(c: Config, argv: seq<string>, action: string, args: PyList?)
    returns (r: Result<seq<string>, Error>)
    modifies args
    ensures r.Err? <==> c.backendId != "" && args == null
    ensures r.Err? ==> r.error == TypeError(NONE_NOT_ITERABLE)
    ensures r.Ok? ==> r.value == argv + ActionBlock(c, action, if args == null then [] else old(args.items))
    ensures args != null ==>
              args.items == if c.backendId == "" then old(args.items) else BackendArgs(c, old(args.items))
  {
    var block: seq<string>;
    if c.backendId == "" {
      block := [action];
      if args != null && args.items != [] {
        block := block + args.items;
      }
    } else {
      block := ["backends", c.appDir];
      if args == null {
        return Err(TypeError(NONE_NOT_ITERABLE));
      }
      if c.appDir in args.items {
        var _ := args.Remove(c.appDir);
      }
      block := block + [action];
      if args.items != [] {
        block := block + args.items;
      }
    }
    return Ok(argv + block);
  }

  /**
   * `run_appcfg_with_auth`: check the configuration, build the command
   * line, start appcfg with the password on its standard input and return
   * its output.  appcfg's error stream is merged into its output, so the
   * second half of the pair is always `None`.  For a backend the caller's
   * argument list loses its first copy of the app directory.
   */
  method RunAppcfgWithAuth(c: Config, action: string, options: seq<string>, args: PyList?, procs: Processes)
    returns (r: Result<(string, Option<string>), Error>)
    modifies procs, args
    ensures var spec := AppcfgArgv(c, action, options, if args == null then None else Some(old(args.items)));
            (r.Err? <==> spec.Err?)
            && (r.Err? ==> r.error == spec.error && procs.calls == old(procs.calls))
            && (r.Ok? ==> procs.calls == old(procs.calls) + [Call(spec.value, c.password)]
                          && r.value == (procs.respond(|old(procs.calls)|, Call(spec.value, c.password)), None))
    ensures args != null && c.backendId != "" && CheckRequired(c, RUN_APPCFG_REQUIRED).Ok? ==>
              args.items == BackendArgs(c, old(args.items))
    ensures args != null && (c.backendId == "" || CheckRequired(c, RUN_APPCFG_REQUIRED).Err?) ==>
              args.items == old(args.items)
  {
    var chk := CheckRequiredConfigAttr(c, RUN_APPCFG_REQUIRED);
    if chk.Err? {
      return Err(chk.error);
    }
    var prefix := BuildArgvPrefix(c, options);
    var argv := AppendActionBlock(c, prefix, action, args);
    if argv.Err? {
      return Err(argv.error);
    }
    var stdout := procs.Communicate(argv.value, c.password);
    return Ok((stdout, None));
  }

  // ---------------------------------------------------------------------
  // Recognising an open transaction

  /** `config.username.split('@')[0]`: the user name without the mail domain. */
  function ShortUsername(username: string): string {
    Split(username, '@')[0]
  }

  /** The short user name is the text before the first `@`, or all of it when there is none. */
  lemma ShortUsernameShape(username: string)
    ensures var r := ShortUsername(username);
            '@' !in r && StartsWith(username, r)
            && ('@' in username ==> username[|r|] == '@')
            && ('@' !in username ==> r == username)
  {
    SplitPiecesFree(username, '@');
    if '@' in username {
      SplitFirst(username, '@');
    } else {
      SplitFree(username, '@');
    }
  }

  /** The text of ROLLBACK_ERR_MESSAGE before its middle wildcard, for user `user`. */
  function ConflictHead(user: string): string {
    "Another transaction by user " + user + " is already in progress for "
  }

  /** The text of ROLLBACK_ERR_MESSAGE after its middle wildcard. */
  const CONFLICT_TAIL: string := " That user can undo the transaction with "

  /**
   * `re.match(ROLLBACK_ERR_MESSAGE % user, out, re.DOTALL)`, with the user
   * name read literally: the head occurs, and the tail occurs after it.
   */
  ghost predicate MatchesRollbackMessage(user: string, out: string) {
    OccursInOrder(out, ConflictHead(user), CONFLICT_TAIL)
  }

  /** The same test the way it is computed: first head, then a tail after it. */
  predicate ConflictReported(user: string, out: string) {
    FoundInOrder(out, ConflictHead(user), CONFLICT_TAIL)
  }

  lemma ConflictReportedIff(user: string, out: string)
    ensures ConflictReported(user, out) <==> MatchesRollbackMessage(user, out)
  {
    FoundInOrderIff(out, ConflictHead(user), CONFLICT_TAIL);
  }

  // ---------------------------------------------------------------------
  // update_app

  /** What `update_app` returns or raises, and the processes it started. */
  datatype UpdateRun = UpdateRun(result: Result<(Option<string>, Option<string>), Error>, calls: seq<Call>)

  /** The arguments of the rollback: the backend if there is one, else the app directory. */
  function RollbackArgs(c: Config): seq<string> {
    if c.backendId == "" then [c.appDir] else [c.backendId]
  }

  /** The update `update_app` runs on every pass, or the error building it raises. */
  function UpdateCall(c: Config, options: seq<string>): Result<Call, Error> {
    var argv := AppcfgArgv(c, "update", options, Some([c.appDir]));
    if argv.Err? then Err(argv.error) else Ok(Call(argv.value, c.password))
  }

  /**
   * The rollback `update_app` runs after an update that found a transaction
   * open.  Its configuration check cannot fail once the update's has
   * passed, so its command line is built directly.
   */
  function RollbackCall(c: Config, options: seq<string>): Call {
    Call(ArgvFor(c, "rollback", options, RollbackArgs(c)), c.password)
  }

  /** How one pass of the `update_app` loop ends. */
  datatype Attempt =
    | Raised(error: Error)
    | RolledBack(stdout: string)
    | Updated(stdout: string, stderr: Option<string>)

  /**
   * One pass of the `update_app` loop, from the point where `n` processes
   * have been started: how it ends and the processes it starts.  `upd` is
   * the update's command line or the error building it raises, `rb` the
   * rollback and `user` the short user name.  An update whose output
   * reports an open transaction is followed by the rollback; an update or
   * rollback whose output contains "Error" otherwise raises AppcfgError; a
   * clean update ends the loop.
   */
  function Pass(upd: Result<Call, Error>, rb: Call, user: string, respond: (nat, Call) -> string, n: nat)
    : (Attempt, seq<Call>)
  {
    if upd.Err? then (Raised(upd.error), [])
    else
      var out := respond(n, upd.value);
      if ConflictReported(user, out) then
        var rbOut := respond(n + 1, rb);
        if Contains(rbOut, "Error") then (Raised(AppcfgError("Could not rollback: " + rbOut)), [upd.value, rb])
        else (RolledBack(rbOut), [upd.value, rb])
      else if Contains(out, "Error") then (Raised(AppcfgError("Could not update : " + out)), [upd.value])
      else (Updated(out, None), [upd.value])
  }

  /**
   * The rest of `update_app` with `retries` attempts left, `n` processes
   * started and `last` the latest output: passes follow each other while
   * they end in a rollback and attempts are left.
   */
  function UpdateFrom(upd: Result<Call, Error>, rb: Call, user: string, retries: int,
                      respond: (nat, Call) -> string, n: nat, last: (Option<string>, Option<string>)): UpdateRun
    decreases retries
  {
    if retries <= 0 then UpdateRun(Ok(last), [])
    else
      var (a, made) := Pass(upd, rb, user, respond, n);
      match a
      case Raised(e) => UpdateRun(Err(e), made)
      case Updated(out, err) => UpdateRun(Ok((Some(out), err)), made)
      case RolledBack(out) =>
        var rest := UpdateFrom(upd, rb, user, retries - 1, respond, n + 2, (Some(out), None));
        UpdateRun(rest.result, made + rest.calls)
  }

  /**
   * What a pass that ended as `a` after starting `made` leaves of the rest
   * of the loop; `left` is the number of attempts after this one.
   */
  lemma UpdateFromPass(upd: Result<Call, Error>, rb: Call, user: string, retries: int, left: int,
                       respond: (nat, Call) -> string, n: nat, last: (Option<string>, Option<string>),
                       a: Attempt, made: seq<Call>)
    requires retries > 0 && left == retries - 1 && (a, made) == Pass(upd, rb, user, respond, n)
    ensures var here := UpdateFrom(upd, rb, user, retries, respond, n, last);
            (a.Raised? ==> here == UpdateRun(Err(a.error), made))
            && (a.Updated? ==> here == UpdateRun(Ok((Some(a.stdout), a.stderr)), made))
            && (a.RolledBack? ==>
                  var rest := UpdateFrom(upd, rb, user, left, respond, n + 2, (Some(a.stdout), None));
                  |made| == 2 && here == UpdateRun(rest.result, made + rest.calls))
  {
  }

  /** `update_app(config, options, rollback_retries)` with `n` processes started before. */
  function UpdateAppRun(c: Config, options: seq<string>, retries: int, respond: (nat, Call) -> string, n: nat)
    : UpdateRun
  {
    var chk := CheckRequired(c, UPDATE_APP_REQUIRED);
    if chk.Err? then UpdateRun(Err(chk.error), [])
    else UpdateFrom(UpdateCall(c, options), RollbackCall(c, options), ShortUsername(c.username),
                    retries, respond, n, (None, None))
  }

  /** One pass of the `update_app` loop: run the update and, if its output reports an open transaction, the rollback. */
  method UpdateAttempt(c: Config, options: seq<string>, shortUsername: string, procs: Processes)
    returns (a: Attempt, ghost made: seq<Call>)
    requires shortUsername == ShortUsername(c.username)
    modifies procs
    ensures (a, made) == Pass(UpdateCall(c, options), RollbackCall(c, options), shortUsername,
                              procs.respond, |old(procs.calls)|)
    ensures procs.calls == old(procs.calls) + made
  {
    var upd := RunUpdate(c, options, procs);
    if upd.Err? {
      return Raised(upd.error), [];
    }
    var out := upd.value.0;
    ghost var updCall := UpdateCall(c, options).value;
    if ConflictReported(shortUsername, out) {
      var rbOut := RunRollback(c, options, procs);
      made := [updCall, RollbackCall(c, options)];
      if Contains(rbOut, "Error") {
        return Raised(AppcfgError("Could not rollback: " + rbOut)), made;
      }
      return RolledBack(rbOut), made;
    } else if Contains(out, "Error") {
      return Raised(AppcfgError("Could not update : " + out)), [updCall];
    } else {
      return Updated(out, upd.value.1), [updCall];
    }
  }

  /** The update of one pass: `run_appcfg_with_auth(config, 'update', options, args=[config.app_dir])`. */
  method RunUpdate(c: Config, options: seq<string>, procs: Processes)
    returns (r: Result<(string, Option<string>), Error>)
    modifies procs
    ensures var upd := UpdateCall(c, options);
            (r.Err? <==> upd.Err?)
            && (r.Err? ==> r.error == upd.error && procs.calls == old(procs.calls))
            && (r.Ok? ==> procs.calls == old(procs.calls) + [upd.value]
                          && r.value == (procs.respond(|old(procs.calls)|, upd.value), None))
  {
    var updArgs := new PyList([c.appDir]);
    r := RunAppcfgWithAuth(c, "update", options, updArgs, procs);
  }

  /**
   * The rollback after an update that found a transaction open, with the
   * backend or else the app directory as argument.  The configuration
   * passed the update's check, which is the same, so it cannot fail.
   */
  method RunRollback(c: Config, options: seq<string>, procs: Processes) returns (stdout: string)
    requires UpdateCall(c, options).Ok?
    modifies procs
    ensures procs.calls == old(procs.calls) + [RollbackCall(c, options)]
    ensures stdout == procs.respond(|old(procs.calls)|, RollbackCall(c, options))
  {
    var rbArgs := new PyList(if c.backendId == "" then [c.appDir] else [c.backendId]);
    var rb := RunAppcfgWithAuth(c, "rollback", options, rbArgs, procs);
    if rb.Err? {
      assert false;
    }
    stdout := rb.value.0;
  }

  /**
   * Bookkeeping of the `update_app` loop: the whole run `spec` is the calls
   * `done` so far followed by the run `rest` still to come.
   */
  ghost predicate Pending(spec: UpdateRun, done: seq<Call>, rest: UpdateRun) {
    spec.result == rest.result && spec.calls == done + rest.calls
  }

  lemma PendingStep(spec: UpdateRun, done: seq<Call>, made: seq<Call>, rest: UpdateRun)
    requires Pending(spec, done, UpdateRun(rest.result, made + rest.calls))
    ensures Pending(spec, done + made, rest)
  {
    SeqAssoc(done, made, rest.calls);
  }

  lemma PendingEnd(spec: UpdateRun, done: seq<Call>, made: seq<Call>, res: Result<(Option<string>, Option<string>), Error>)
    requires Pending(spec, done, UpdateRun(res, made))
    ensures spec == UpdateRun(res, done + made)
  {
  }

  /**
   * `update_app`: check the configuration, then run the retry loop.
   */
  method UpdateApp(c: Config, options: seq<string>, rollbackRetries: int, procs: Processes)
    returns (r: Result<(Option<string>, Option<string>), Error>)
    modifies procs
    ensures var run := UpdateAppRun(c, options, rollbackRetries, procs.respond, |old(procs.calls)|);
            r == run.result && procs.calls == old(procs.calls) + run.calls
  {
    var chk := CheckRequiredConfigAttr(c, UPDATE_APP_REQUIRED);
    if chk.Err? {
      return Err(chk.error);
    }
    r := UpdateRetries(c, options, rollbackRetries, procs);
  }

  /**
   * A pass of the loop with `retries` attempts left, seen from the rest of
   * the run: `left` is what remains after it, and the rest of the run from
   * here is the pass followed, after a rollback, by the run from `left`.
   */
  method UpdatePass(c: Config, options: seq<string>, shortUsername: string, procs: Processes,
                    retries: int, ghost last: (Option<string>, Option<string>))
    returns (a: Attempt, left: int, ghost made: seq<Call>)
    requires retries > 0 && shortUsername == ShortUsername(c.username)
    modifies procs
    ensures procs.calls == old(procs.calls) + made && left == retries - 1
    ensures var here := UpdateFrom(UpdateCall(c, options), RollbackCall(c, options), shortUsername, retries,
                                   procs.respond, |old(procs.calls)|, last);
            (a.Raised? ==> here == UpdateRun(Err(a.error), made))
            && (a.Updated? ==> here == UpdateRun(Ok((Some(a.stdout), a.stderr)), made))
            && (a.RolledBack? ==>
                  var rest := UpdateFrom(UpdateCall(c, options), RollbackCall(c, options), shortUsername, left,
                                         procs.respond, |procs.calls|, (Some(a.stdout), None));
                  here == UpdateRun(rest.result, made + rest.calls))
  {
    a, made := UpdateAttempt(c, options, shortUsername, procs);
    left := retries - 1;
    UpdateFromPass(UpdateCall(c, options), RollbackCall(c, options), shortUsername, retries, left,
                   procs.respond, |old(procs.calls)|, last, a, made);
  }

  /**
   * The retry loop of `update_app`: at most `rollbackRetries` passes, each an
   * update followed, when a transaction was left open, by a rollback.
   */
  method UpdateRetries(c: Config, options: seq<string>, rollbackRetries: int, procs: Processes)
    returns (r: Result<(Option<string>, Option<string>), Error>)
    modifies procs
    ensures var run := UpdateFrom(UpdateCall(c, options), RollbackCall(c, options), ShortUsername(c.username),
                                  rollbackRetries, procs.respond, |old(procs.calls)|, (None, None));
            r == run.result && procs.calls == old(procs.calls) + run.calls
  {
    var shortUsername := ShortUsername(c.username);
    var success := false;
    var stdout: Option<string>, stderr: Option<string> := None, None;
    var retries := rollbackRetries;
    ghost var start := procs.calls;
    ghost var done: seq<Call> := [];
    ghost var upd, rb := UpdateCall(c, options), RollbackCall(c, options);
    ghost var respond := procs.respond;
    ghost var spec := UpdateFrom(upd, rb, shortUsername, retries, respond, |start|, (None, None));
    // what is still to come, while the loop goes on
    ghost var rest := spec;
    assert done + spec.calls == spec.calls;
    while retries > 0 && !success
      invariant procs.calls == start + done && respond == procs.respond
      invariant Pending(spec, done, rest)
      invariant !success ==> rest == UpdateFrom(upd, rb, shortUsername, retries, respond, |procs.calls|, (stdout, stderr))
      invariant success ==> rest == UpdateRun(Ok((stdout, stderr)), [])
      decreases retries, if success then 0 else 1
    {
      var a, left, made := UpdatePass(c, options, shortUsername, procs, retries, (stdout, stderr));
      SeqAssoc(start, done, made);
      match a
      case Raised(e) =>
        PendingEnd(spec, done, made, rest.result);
        return Err(e);
      case RolledBack(out) =>
        retries, stdout, stderr := left, Some(out), None;
        ghost var next := UpdateFrom(upd, rb, shortUsername, retries, respond, |procs.calls|, (stdout, stderr));
        PendingStep(spec, done, made, next);
        done, rest := done + made, next;
      case Updated(out, err) =>
        PendingStep(spec, done, made, UpdateRun(rest.result, []));
        done, rest := done + made, UpdateRun(rest.result, []);
        stdout, stderr, success := Some(out), err, true;
    }
    assert rest.calls == [] && rest.result == Ok((stdout, stderr));
    assert done + [] == done;
    return Ok((stdout, stderr));
  }
}
