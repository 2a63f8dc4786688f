/**
 * `DevAppServerThread` (gaedriver.py, lines 420-535): runs a local
 * dev_appserver for the configured application, with app.yaml rewritten to
 * carry the configured app id while it runs.
 */
module PyDevAppServer {
  import opened Wrappers
  import opened Text
  import opened PyConfig
  import opened PyFiles

  /** SIGKILL, the signal `stop` sends. */
  const SIGKILL: int := 9

  const DEV_APPSERVER_REQUIRED: seq<AttrName> := [AppId, AppDir, SdkDir, AppHostname]

  /** The processes the operating system was asked to start, and the signals sent. */
  class ProcessTable {
    var spawned: seq<seq<string>>
    var signals: seq<(int, int)>

    constructor ()
      ensures spawned == [] && signals == []
    {
      spawned := [];
      signals := [];
    }

    method Spawn(argv: seq<string>)
      modifies this
      ensures spawned == old(spawned) + [argv] && signals == old(signals)
    {
      spawned := spawned + [argv];
    }

    method Kill(pid: int, signal: int)
      modifies this
      ensures signals == old(signals) + [(pid, signal)] && spawned == old(spawned)
    {
      signals := signals + [(pid, signal)];
    }
  }

  /** The message of the ValueError `_get_argv` raises for a hostname with two colons. */
  function ColonError(appHostname: string): Error {
    ValueError("Expected at most 1 colon in config.app_hostname: \"" + appHostname + "\"")
  }

  /**
   * The `--port` option for an app hostname with at most one colon: the
   * text after the colon, or the empty string when there is none.
   */
  function PortOption(appHostname: string): (r: string)
    requires Count(appHostname, ':') <= 1
    ensures ':' !in appHostname ==> r == ""
  {
    var parts := Split(appHostname, ':');
    SplitLength(appHostname, ':');
    CountPositive(appHostname, ':');
    if |parts| == 1 then "" else "--port=" + parts[1]
  }

  /**
   * `_get_argv`: the dev_appserver command line, or ValueError for an app
   * hostname with more than one colon.
   */
  function DevAppserverArgv(c: Config, options: seq<string>, clearDatastore: bool): (r: Result<seq<string>, Error>)
    ensures r.Err? <==> Count(c.appHostname, ':') > 1
    ensures r.Err? ==> r.error == ColonError(c.appHostname)
  {
    if Count(c.appHostname, ':') > 1 then Err(ColonError(c.appHostname))
    else
      Ok([PathJoin(c.sdkDir, "dev_appserver.py"), "--skip_sdk_update_check", PortOption(c.appHostname)]
         + (if clearDatastore then ["--clear_datastore"] else [])
         + options + [c.appDir])
  }

  /**
   * How the dev_appserver command line reads: the tool, the update-check
   * switch, the port option, `--clear_datastore` when asked for, the
   * caller's options, and the app directory last.
   */
  lemma DevAppserverArgvShape(c: Config, options: seq<string>, clearDatastore: bool)
    requires Count(c.appHostname, ':') <= 1
    ensures var argv := DevAppserverArgv(c, options, clearDatastore).value;
            var k := if clearDatastore then 4 else 3;
            |argv| == k + |options| + 1
            && argv[..3] == [PathJoin(c.sdkDir, "dev_appserver.py"), "--skip_sdk_update_check", PortOption(c.appHostname)]
            && (clearDatastore ==> argv[3] == "--clear_datastore")
            && argv[k..k + |options|] == options
            && argv[|argv| - 1] == c.appDir
  {
    var argv := DevAppserverArgv(c, options, clearDatastore).value;
    var head := [PathJoin(c.sdkDir, "dev_appserver.py"), "--skip_sdk_update_check", PortOption(c.appHostname)];
    var front := head + (if clearDatastore then ["--clear_datastore"] else []);
    assert argv == front + options + [c.appDir];
  }

  /**
   * The hostname `Config` gives a local cluster `localhost:port` is served on
   * that port: the command line asks for `--port=<port>`.
   */
  lemma LocalPort(c: Config, port: string)
    requires ':' !in port && c.appHostname == LOCALHOST + ":" + port
    ensures DevAppserverArgv(c, [], true).Ok?
    ensures DevAppserverArgv(c, [], true).value[2] == "--port=" + port
  {
    var h := c.appHostname;
    assert h == LOCALHOST + [':'] + port;
    SplitPrefix(LOCALHOST, port, ':');
    SplitFree(port, ':');
    SplitLength(h, ':');
    assert Split(h, ':') == [LOCALHOST, port];
  }

  /**
   * The loop of `_replace_app_yaml` over the lines of app.yaml: each line
   * printed back, patched, with its newline.
   */
  method PatchAppYaml(content: string, appId: string) returns (out: string)
    ensures out == PatchedContent(content, appId)
  {
    var lines := Lines(content);
    ghost var patched := PatchedLines(content, appId);
    out := "";
    for i := 0 to |lines|
      invariant out == Unlines(patched[..i])
    {
      var line := PatchLine(lines[i], appId);
      assert patched[..i + 1] == patched[..i] + [line];
      UnlinesSnoc(patched[..i], line);
      out := out + line + "\n";
    }
    assert patched[..|lines|] == patched;
  }

  /**
   * `DevAppServerThread`: the configuration it runs, the pid of the running
   * dev_appserver once `run` has started it, and the paths of app.yaml and
   * of its backup.
   */
  class DevAppServerThread {
    const config: Config
    const options: seq<string>
    const clearDatastore: bool
    var pid: Option<int>
    const appYamlPath: string := AppYamlPath(config.appDir)
    const appYamlBakPath: string := AppYamlBackupPath(config.appDir)

    /** The state `__init__` leaves once the configuration has passed its check. */
    constructor (config: Config, options: Option<seq<string>>, clearDatastore: bool)
      ensures this.config == config && this.options == options.GetOr([])
      ensures this.clearDatastore == clearDatastore && pid == None
    {
      this.config := config;
      this.options := options.GetOr([]);
      this.clearDatastore := clearDatastore;
      pid := None;
    }

    /** `_get_argv`. */
    function GetArgv(): Result<seq<string>, Error> {
      DevAppserverArgv(config, options, clearDatastore)
    }

    /**
     * `_replace_app_yaml`: back up app.yaml, then print it back line by
     * line with every `application:` line naming the configured app id.
     */
    method ReplaceAppYaml(fs: FileSystem) returns (r: Result<(), Error>)
      modifies fs
      ensures var want := ReplacedFiles(old(fs.files), appYamlPath, appYamlBakPath, config.appId);
              (r.Err? <==> want.Err?)
              && (r.Err? ==> r.error == want.error && fs.files == old(fs.files))
              && (r.Ok? ==> fs.files == want.value)
    {
      r := fs.Copy(appYamlPath, appYamlBakPath);
      if r.Err? {
        return;
      }
      var out := PatchAppYaml(fs.files[appYamlPath], config.appId);
      fs.Discard(InPlaceBackupPath(appYamlPath));
      fs.Write(appYamlPath, out);
    }

    /** `_restore_app_yaml`: remove app.yaml, copy the backup over it, remove the backup. */
    method RestoreAppYaml(fs: FileSystem) returns (r: Option<Error>)
      modifies fs
      ensures (fs.files, r) == RestoredFiles(old(fs.files), appYamlPath, appYamlBakPath)
    {
      DriverPathsDistinct(config.appDir);
      var removed := fs.Remove(appYamlPath);
      if removed.Err? {
        return Some(removed.error);
      }
      var copied := fs.Copy(appYamlBakPath, appYamlPath);
      if copied.Err? {
        return Some(copied.error);
      }
      var _ := fs.Remove(appYamlBakPath);
      return None;
    }

    /**
     * `run`, the body of the thread: start dev_appserver with the command
     * line and remember the pid the operating system gave it.  A
     * ValueError from `_get_argv` ends the thread before anything starts.
     */
    method Run(os: ProcessTable, newPid: int) returns (r: Result<(), Error>)
      modifies this, os
      ensures r == (if GetArgv().Err? then Err(GetArgv().error) else Ok(()))
      ensures r.Err? ==> pid == old(pid) && os.spawned == old(os.spawned)
      ensures r.Ok? ==> pid == Some(newPid) && os.spawned == old(os.spawned) + [GetArgv().value]
      ensures os.signals == old(os.signals)
    {
      var argv := GetArgv();
      if argv.Err? {
        return Err(argv.error);
      }
      os.Spawn(argv.value);
      pid := Some(newPid);
      return Ok(());
    }

    /**
     * `start`: rewrite app.yaml, then run the thread.  An error of the
     * rewrite reaches the caller; an error inside the thread does not.
     */
    method Start(fs: FileSystem, os: ProcessTable, newPid: int) returns (r: Result<(), Error>)
      modifies this, fs, os
      ensures var want := ReplacedFiles(old(fs.files), appYamlPath, appYamlBakPath, config.appId);
              (r.Err? <==> want.Err?)
              && (r.Err? ==> r.error == want.error && fs.files == old(fs.files)
                             && pid == old(pid) && os.spawned == old(os.spawned))
              && (r.Ok? ==> fs.files == want.value
                            && (GetArgv().Err? ==> pid == old(pid) && os.spawned == old(os.spawned))
                            && (GetArgv().Ok? ==> pid == Some(newPid)
                                                  && os.spawned == old(os.spawned) + [GetArgv().value]))
      ensures os.signals == old(os.signals)
    {
      r := ReplaceAppYaml(fs);
      if r.Err? {
        return;
      }
      var _ := Run(os, newPid);
    }

    /**
     * `stop`: kill dev_appserver with SIGKILL when a (non-zero) pid is
     * known, then restore app.yaml.
     */
    method Stop(fs: FileSystem, os: ProcessTable) returns (r: Option<Error>)
      modifies fs, os
      ensures (fs.files, r) == RestoredFiles(old(fs.files), appYamlPath, appYamlBakPath)
      ensures os.signals == old(os.signals) + (if pid.Some? && pid.value != 0 then [(pid.value, SIGKILL)] else [])
      ensures os.spawned == old(os.spawned)
    {
      if pid.Some? && pid.value != 0 {
        os.Kill(pid.value, SIGKILL);
      }
      r := RestoreAppYaml(fs);
    }
  }

  /**
   * `DevAppServerThread(config, options, clear_datastore)`: ValueError when
   * the app id, app directory, SDK directory or app hostname is not set;
   * otherwise the new thread object.
   */
  method NewDevAppServerThread(config: Config, options: Option<seq<string>>, clearDatastore: bool)
    returns (r: Result<DevAppServerThread, Error>)
    ensures r.Err? <==> CheckRequired(config, DEV_APPSERVER_REQUIRED).Err?
    ensures r.Err? ==> r.error == CheckRequired(config, DEV_APPSERVER_REQUIRED).error
    ensures r.Ok? ==> fresh(r.value) && r.value.config == config && r.value.options == options.GetOr([])
                      && r.value.clearDatastore == clearDatastore && r.value.pid == None
                      && r.value.appYamlPath == AppYamlPath(config.appDir)
                      && r.value.appYamlBakPath == AppYamlBackupPath(config.appDir)
  {
    var chk := CheckRequiredConfigAttr(config, DEV_APPSERVER_REQUIRED);
    if chk.Err? {
      return Err(chk.error);
    }
    var t := new DevAppServerThread(config, options, clearDatastore);
    return Ok(t);
  }
}
