/**
 * `DevAppserverThread` of the Java driver (DevAppserverThread.java): where
 * the dev_appserver listens, read off the app hostname of the
 * configuration, and the command line that starts it.
 */
module JavaDevAppServer {
  import opened Wrappers
  import opened Text
  import opened JavaUtils
  import opened JavaConfig

  /** The message of the InvalidConfigException for a port that is not an integer. */
  function PortError(portString: string): JavaError {
    InvalidConfigException("\"" + portString + "\" is not a valid port.")
  }

  /**
   * `init(config)` on a thread whose port was `port`, for a configuration
   * with app hostname `appHostname`: the outcome, the host and the port.
   * The host is written before the port is parsed, so it is set even when
   * the port is rejected.
   */
  function HostAndPort(appHostname: string, port: int): (Result<(), JavaError>, string, int) {
    var portSep := IndexOf(appHostname, ":");
    if portSep == -1 then (Ok(()), appHostname, DEFAULT_DEVAPPSERVER_PORT)
    else
      var host := appHostname[..portSep];
      var portString := appHostname[portSep + 1..];
      var parsed := ParseJavaInt(portString);
      if parsed.None? then (Err(PortError(portString)), host, port)
      else (Ok(()), host, parsed.value)
  }

  /** The class that starts the dev_appserver and the class it runs. */
  const KICK_START: string := "com.google.appengine.tools.KickStart"
  const DEV_APP_SERVER_MAIN: string := "com.google.appengine.tools.development.DevAppServerMain"

  class DevAppserverThread {
    var config: Config
    var options: seq<string>
    var host: string
    var port: int

    /** The fields once the superclass constructor has run: `host` is null (here "") and `port` 0. */
    constructor Blank(config: Config, options: seq<string>)
      ensures this.config == config && this.options == options && host == "" && port == 0
    {
      this.config := config;
      this.options := options;
      host := "";
      port := 0;
    }

    /** `init`: host and port from the app hostname of `config`. */
    method Init(config: Config) returns (r: Result<(), JavaError>)
      modifies this
      ensures (r, host, port) == HostAndPort(config.appHostname, old(port))
      ensures this.config == old(this.config) && options == old(options)
    {
      var portSep := IndexOf(config.appHostname, ":");
      if portSep == -1 {
        this.host := config.appHostname;
        this.port := DEFAULT_DEVAPPSERVER_PORT;
      } else {
        this.host := config.appHostname[..portSep];
        var portString := config.appHostname[portSep + 1..];
        var parsed := ParseJavaInt(portString);
        if parsed.None? {
          return Err(PortError(portString));
        }
        this.port := parsed.value;
      }
      return Ok(());
    }

    /**
     * `buildArgumentList`, with `javaHome` the `java.home` system property:
     * the Java launcher, the tools jar on the class path, the KickStart and
     * DevAppServerMain classes, the SDK root, host and port, the options and
     * the application directory.
     */
    function BuildArgumentList(javaHome: string): seq<string>
      reads this, config
    {
      [javaHome + "/bin/java", "-ea", "-cp", config.sdkDir + "/lib/appengine-tools-api.jar",
       KICK_START, DEV_APP_SERVER_MAIN,
       "--sdk_root=" + config.sdkDir, "--address=" + host, "--port=" + IntToString(port)]
      + options + [config.appDir]
    }
  }

  /**
   * The constructors `DevAppserverThread(config, options)` and
   * `DevAppserverThread(config)` (with no options): they fail when `init` does.
   */
  method NewDevAppserverThread(config: Config, options: seq<string>) returns (r: Result<DevAppserverThread, JavaError>)
    ensures var (ok, host, port) := HostAndPort(config.appHostname, 0);
            (r.Err? <==> ok.Err?) && (r.Err? ==> r.error == ok.error)
            && (r.Ok? ==> fresh(r.value) && r.value.config == config && r.value.options == options
                          && r.value.host == host && r.value.port == port)
  {
    var t := new DevAppserverThread.Blank(config, options);
    var ok := t.Init(config);
    if ok.Err? {
      return Err(ok.error);
    }
    return Ok(t);
  }

  // ---------------------------------------------------------------------
  // Properties of init

  /**
   * Without a colon the host is the whole app hostname and the port 8080;
   * with one, the host is the text before the first colon and the port the
   * integer after it, and text after it that is not a 32-bit integer makes
   * an InvalidConfigException naming that text.
   */
  lemma HostAndPortShape(appHostname: string, port: int)
    ensures var (r, host, p) := HostAndPort(appHostname, port);
            (':' !in appHostname ==> r.Ok? && host == appHostname && p == DEFAULT_DEVAPPSERVER_PORT)
            && (':' in appHostname ==>
                  var i := IndexOf(appHostname, ":");
                  0 <= i < |appHostname| && appHostname == host + ":" + appHostname[i + 1..] && ':' !in host
                  && (r.Ok? <==> ParseJavaInt(appHostname[i + 1..]).Some?)
                  && (r.Ok? ==> p == ParseJavaInt(appHostname[i + 1..]).value)
                  && (r.Err? ==> r.error == PortError(appHostname[i + 1..]) && p == port))
  {
    IndexOfChar(appHostname, ':');
    assert ":" == [':'];
    var i := IndexOf(appHostname, ":");
    if i >= 0 {
      assert appHostname == appHostname[..i] + [':'] + appHostname[i + 1..];
    }
  }

  /** `init` reads back the host and port that `host + ":" + port` was written from. */
  lemma HostAndPortRoundTrip(host: string, p: int, port: int)
    requires ':' !in host && MIN_INT32 <= p <= MAX_INT32
    ensures HostAndPort(host + ":" + IntToString(p), port) == (Ok(()), host, p)
  {
    var h := host + ":" + IntToString(p);
    IndexOfChar(h, ':');
    assert ":" == [':'];
    assert h[|host|] == ':';
    var i := IndexOf(h, ":");
    assert h[..|host|] == host;
    assert h[..i] == host && h[i + 1..] == IntToString(p);
    ParseIntToString(p);
  }

  /**
   * A configuration for a dev_appserver made without a cluster hostname
   * names `localhost:<port>`; `init` finds the host "localhost" and the
   * port the port picker chose, or 8080 when it found none.
   */
  lemma LocalConfigPort(s: ConfigState, a: InitArgs, pickedPort: int, port: int)
    requires a.clusterHostname == "" && ParsedAppId(s, a.appId).0.Ok?
    requires pickedPort == -1 || InRange(pickedPort)
    ensures var t := Initialized(s, a, pickedPort).1;
            HostAndPort(t.appHostname, port)
              == (Ok(()), "localhost", if pickedPort == -1 then DEFAULT_DEVAPPSERVER_PORT else pickedPort)
  {
    InitWithoutClusterHostname(s, a, pickedPort);
    var p := if pickedPort == -1 then DEFAULT_DEVAPPSERVER_PORT else pickedPort;
    assert "localhost:" + IntToString(p) == "localhost" + ":" + IntToString(p);
    HostAndPortRoundTrip("localhost", p, port);
  }

  // ---------------------------------------------------------------------
  // Properties of buildArgumentList

  /**
   * The command starts with the Java launcher, `-ea`, `-cp` and the tools
   * jar; it holds both class names and the SDK root, host and port flags;
   * the options follow in order and the application directory is last.
   */
  lemma BuildArgumentListShape(t: DevAppserverThread, javaHome: string)
    ensures var cmd := t.BuildArgumentList(javaHome);
            |cmd| == 10 + |t.options|
            && cmd[0] == javaHome + "/bin/java" && cmd[1] == "-ea" && cmd[2] == "-cp"
            && cmd[3] == t.config.sdkDir + "/lib/appengine-tools-api.jar"
            && KICK_START in cmd && DEV_APP_SERVER_MAIN in cmd
            && "--sdk_root=" + t.config.sdkDir in cmd
            && "--address=" + t.host in cmd && "--port=" + IntToString(t.port) in cmd
            && cmd[9..|cmd| - 1] == t.options
            && cmd[|cmd| - 1] == t.config.appDir
  {
    var cmd := t.BuildArgumentList(javaHome);
    assert cmd[4] == KICK_START && cmd[5] == DEV_APP_SERVER_MAIN;
    assert cmd[6] == "--sdk_root=" + t.config.sdkDir;
    assert cmd[7] == "--address=" + t.host && cmd[8] == "--port=" + IntToString(t.port);
  }
}
