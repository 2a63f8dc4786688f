/**
 * `Config` of the Java driver (Config.java): the configuration object whose
 * `init` and `parseAppId` write its fields one after another, the
 * constructors and `loadFromProperties` built on them, and the setters.
 */
module JavaConfig {
  import opened Wrappers
  import opened Text
  import opened JavaUtils
  import PyConfig

  /** The port a dev_appserver gets when no free port was found. */
  const DEFAULT_DEVAPPSERVER_PORT: int := 8080

  /** The admin-console hostname of a configuration for a dev_appserver. */
  const NO_AC_ON_SDK: string := "AC_NOT_AVAILABLE_ON_DEVAPPSERVER"

  /** The exceptions of the Java driver that the model raises. */
  datatype JavaError =
    | InvalidConfigException(message: string)
    | ArrayIndexOutOfBounds(index: int)
    | ClientException(message: string)

  /**
   * The fields of a `Config`.  `partition` and `domain` are `None` while
   * they hold null: `parseAppId` does not always write them.
   */
  datatype ConfigState = ConfigState(
    acHostname: string,
    appId: string,
    displayAppId: string,
    domain: Option<string>,
    partition: Option<string>,
    appHostname: string,
    backendId: string,
    backendInstances: int,
    clusterHostname: string,
    sdkDir: string,
    appDir: string,
    username: string,
    password: string)

  /** The arguments of `init`, in its order. */
  datatype InitArgs = InitArgs(
    appId: string,
    backendId: string,
    backendInstances: int,
    clusterHostname: string,
    sdkDir: string,
    appDir: string,
    acHostname: string,
    username: string,
    password: string)

  /**
   * One `if (display.indexOf(sep) >= 0)` block of `parseAppId`, applied to
   * the display id and the field it fills: `split(sep)`, then `[0]` into
   * the field and `[1]` into the display id.  Reading past the end of the
   * pieces raises ArrayIndexOutOfBounds, after the reads before it.  The
   * result is the outcome, the field and the display id.
   */
  function CutOff(display: string, sep: char, field: Option<string>)
    : (Result<(), JavaError>, Option<string>, string)
  {
    if sep !in display then (Ok(()), field, display)
    else
      var subStrings := JavaSplit(display, sep);
      if |subStrings| == 0 then (Err(ArrayIndexOutOfBounds(0)), field, display)
      else if |subStrings| == 1 then (Err(ArrayIndexOutOfBounds(1)), Some(subStrings[0]), display)
      else (Ok(()), Some(subStrings[0]), subStrings[1])
  }

  /** The fields after `parseAppId(appId)` on an object whose fields were `s`, and how it ended. */
  function ParsedAppId(s: ConfigState, appId: string): (Result<(), JavaError>, ConfigState) {
    if |appId| == 0 then
      (Ok(()), s.(appId := "", partition := Some(""), domain := Some(""), displayAppId := ""))
    else
      var (r1, partition, display1) := CutOff(appId, '~', s.partition);
      var s1 := s.(appId := appId, partition := partition, displayAppId := display1);
      if r1.Err? then (r1, s1)
      else
        var (r2, domain, display2) := CutOff(display1, ':', s.domain);
        (r2, s1.(domain := domain, displayAppId := display2))
  }

  /** The cluster hostname `init` settles on: the given one, else `localhost:<picked port>`. */
  function ClusterHostnameFor(given: string, pickedPort: int): string {
    if |given| > 0 then given
    else "localhost:" + IntToString(if pickedPort == -1 then DEFAULT_DEVAPPSERVER_PORT else pickedPort)
  }

  /**
   * What `init` writes once `parseAppId` has succeeded, on an object whose
   * fields were then `s`.
   */
  function Completed(s: ConfigState, a: InitArgs, pickedPort: int): ConfigState {
    var cluster := ClusterHostnameFor(a.clusterHostname, pickedPort);
    var remote := IsClusterAppserver(cluster);
    s.(
      backendId := a.backendId,
      backendInstances := a.backendInstances,
      clusterHostname := cluster,
      acHostname := if remote then a.acHostname else NO_AC_ON_SDK,
      appHostname :=
        if !remote then cluster
        else if |a.backendId| != 0 then a.backendId + "." + s.displayAppId + "." + cluster
        else s.displayAppId + "." + cluster,
      sdkDir := a.sdkDir,
      appDir := a.appDir,
      username := a.username,
      password := a.password)
  }

  /**
   * The fields after `init(a...)` on an object whose fields were `s`, where
   * `pickedPort` is what `utils.pickUnusedPort()` returns if it is asked.
   */
  function Initialized(s: ConfigState, a: InitArgs, pickedPort: int): (Result<(), JavaError>, ConfigState) {
    var (r, s1) := ParsedAppId(s, a.appId);
    if r.Err? then (r, s1) else (Ok(()), Completed(s1, a, pickedPort))
  }

  class Config {
    var acHostname: string
    var appId: string
    var displayAppId: string
    var domain: Option<string>
    var partition: Option<string>
    var appHostname: string
    var backendId: string
    var backendInstances: int
    var clusterHostname: string
    var sdkDir: string
    var appDir: string
    var username: string
    var password: string

    function State(): ConfigState
      reads this
    {
      ConfigState(acHostname, appId, displayAppId, domain, partition, appHostname, backendId,
                  backendInstances, clusterHostname, sdkDir, appDir, username, password)
    }

    /**
     * The object before its constructor calls `init`: `backendId` is ""
     * and `backendInstances` 0 by their initialisers, partition and domain
     * are null; the other strings, which `init` always writes, are "".
     */
    constructor Blank()
      ensures State() == ConfigState("", "", "", None, None, "", "", 0, "", "", "", "", "")
    {
      acHostname, appId, displayAppId := "", "", "";
      domain, partition := None, None;
      appHostname, backendId, backendInstances := "", "", 0;
      clusterHostname, sdkDir, appDir, username, password := "", "", "", "", "";
    }

    /** `parseAppId`. */
    method ParseAppId(appId: string) returns (r: Result<(), JavaError>)
      modifies this
      ensures (r, State()) == ParsedAppId(old(State()), appId)
    {
      if |appId| == 0 {
        this.appId := "";
        this.partition := Some("");
        this.domain := Some("");
        this.displayAppId := "";
        return Ok(());
      }
      this.appId := appId;
      this.displayAppId := appId;
      if '~' in this.displayAppId {
        var subStrings := JavaSplit(this.displayAppId, '~');
        if |subStrings| < 1 {
          return Err(ArrayIndexOutOfBounds(0));
        }
        this.partition := Some(subStrings[0]);
        if |subStrings| < 2 {
          return Err(ArrayIndexOutOfBounds(1));
        }
        this.displayAppId := subStrings[1];
      }
      if ':' in this.displayAppId {
        var subStrings := JavaSplit(this.displayAppId, ':');
        if |subStrings| < 1 {
          return Err(ArrayIndexOutOfBounds(0));
        }
        this.domain := Some(subStrings[0]);
        if |subStrings| < 2 {
          return Err(ArrayIndexOutOfBounds(1));
        }
        this.displayAppId := subStrings[1];
      }
      return Ok(());
    }

    /** `init`, with `pickedPort` the answer of `utils.pickUnusedPort()`. */
    method Init(a: InitArgs, pickedPort: int) returns (r: Result<(), JavaError>)
      modifies this
      ensures (r, State()) == Initialized(old(State()), a, pickedPort)
    {
      r := ParseAppId(a.appId);
      if r.Ok? {
        CompleteInit(a, pickedPort);
      }
    }

    /** The statements of `init` after `parseAppId`. */
    method CompleteInit(a: InitArgs, pickedPort: int)
      modifies this
      ensures State() == Completed(old(State()), a, pickedPort)
    {
      ghost var s0 := Completed(old(State()), a, pickedPort);
      this.backendId := a.backendId;
      this.backendInstances := a.backendInstances;
      SetClusterHostname(a.clusterHostname, pickedPort);
      this.acHostname := a.acHostname;
      assert State().(appHostname := s0.appHostname, acHostname := s0.acHostname, sdkDir := a.sdkDir,
                      appDir := a.appDir, username := a.username, password := a.password) == s0;
      SetAppHostname();
      this.sdkDir := a.sdkDir;
      this.appDir := a.appDir;
      this.username := a.username;
      this.password := a.password;
    }

    /** The given cluster hostname, or one on localhost at the picked port, 8080 if none was free. */
    method SetClusterHostname(clusterHostname: string, pickedPort: int)
      modifies this
      ensures State() == old(State()).(clusterHostname := ClusterHostnameFor(clusterHostname, pickedPort))
    {
      if |clusterHostname| > 0 {
        this.clusterHostname := clusterHostname;
      } else {
        var port := pickedPort;
        if port == -1 {
          port := DEFAULT_DEVAPPSERVER_PORT;
        }
        this.clusterHostname := "localhost:" + IntToString(port);
      }
    }

    /**
     * The app hostname under a production cluster, with the backend in
     * front if there is one; under a dev_appserver the cluster hostname,
     * with no admin console.
     */
    method SetAppHostname()
      modifies this
      ensures var s := old(State());
              if IsClusterAppserver(s.clusterHostname) then
                State() == s.(appHostname :=
                                if |s.backendId| != 0 then s.backendId + "." + s.displayAppId + "." + s.clusterHostname
                                else s.displayAppId + "." + s.clusterHostname)
              else State() == s.(appHostname := s.clusterHostname, acHostname := NO_AC_ON_SDK)
    {
      if IsClusterAppserver(this.clusterHostname) {
        if |this.backendId| != 0 {
          this.appHostname := this.backendId + "." + this.displayAppId + "." + this.clusterHostname;
        } else {
          this.appHostname := this.displayAppId + "." + this.clusterHostname;
        }
      } else {
        this.appHostname := this.clusterHostname;
        this.acHostname := NO_AC_ON_SDK;
      }
    }

    method SetSdkDir(sdkDir: string)
      modifies this
      ensures State() == old(State()).(sdkDir := sdkDir)
    {
      this.sdkDir := sdkDir;
    }

    method SetAppDir(appDir: string)
      modifies this
      ensures State() == old(State()).(appDir := appDir)
    {
      this.appDir := appDir;
    }

    method SetPassword(password: string)
      modifies this
      ensures State() == old(State()).(password := password)
    {
      this.password := password;
    }

    method SetUsername(username: string)
      modifies this
      ensures State() == old(State()).(username := username)
    {
      this.username := username;
    }
  }

  /** The state of a new object once its constructor has run `init(a...)`. */
  function Constructed(a: InitArgs, pickedPort: int): (Result<(), JavaError>, ConfigState) {
    Initialized(ConfigState("", "", "", None, None, "", "", 0, "", "", "", "", ""), a, pickedPort)
  }

  /** The nine-argument constructor `Config(appId, ..., password)`; it fails where `init` does. */
  method NewConfig(a: InitArgs, pickedPort: int) returns (r: Result<Config, JavaError>)
    ensures var want := Constructed(a, pickedPort);
            (r.Err? <==> want.0.Err?) && (r.Err? ==> r.error == want.0.error)
            && (r.Ok? ==> fresh(r.value) && r.value.State() == want.1)
  {
    var c := new Config.Blank();
    var ok := c.Init(a, pickedPort);
    if ok.Err? {
      return Err(ok.error);
    }
    return Ok(c);
  }

  /** The arguments the three-argument constructor `Config(clusterHostname, sdkDir, appDir)` passes on. */
  function ShortInitArgs(clusterHostname: string, sdkDir: string, appDir: string): InitArgs {
    InitArgs("", "", 0, clusterHostname, sdkDir, appDir, "", "", "")
  }

  /** The three-argument constructor cannot fail: the empty app id is never split. */
  method NewShortConfig(clusterHostname: string, sdkDir: string, appDir: string, pickedPort: int)
    returns (c: Config)
    ensures fresh(c) && c.State() == Constructed(ShortInitArgs(clusterHostname, sdkDir, appDir), pickedPort).1
  {
    c := new Config.Blank();
    var ok := c.Init(ShortInitArgs(clusterHostname, sdkDir, appDir), pickedPort);
  }

  /** `properties.getProperty(key, "")`. */
  function Property(properties: map<string, string>, key: string): string {
    if key in properties then properties[key] else ""
  }

  /** The message of the InvalidConfigException for a malformed `backendInstances`. */
  function InstancesError(value: string): JavaError {
    InvalidConfigException("\"" + value + "\" is not a valid backendInstances value. Expected an integer.")
  }

  /** The `backendInstances` property as an integer: 0 when empty or absent. */
  function InstancesValue(text: string): (r: Result<int, JavaError>) {
    if |text| == 0 then Ok(0)
    else
      var v := ParseJavaInt(text);
      if v.None? then Err(InstancesError(text)) else Ok(v.value)
  }

  /** The `init` arguments `loadFromProperties` reads, once `backendInstances` has parsed as `instances`. */
  function PropertyArgs(properties: map<string, string>, instances: int): InitArgs {
    InitArgs(Property(properties, "appId"), Property(properties, "backendId"), instances,
             Property(properties, "clusterHostname"), Property(properties, "sdkDir"),
             Property(properties, "appDir"), Property(properties, "acHostname"),
             Property(properties, "username"), Property(properties, "password"))
  }

  /**
   * `loadFromProperties`: read every key with "" as default, parse
   * `backendInstances` (a malformed value is an InvalidConfigException) and
   * construct the configuration.
   */
  method LoadFromProperties(properties: map<string, string>, pickedPort: int) returns (r: Result<Config, JavaError>)
    ensures var n := InstancesValue(Property(properties, "backendInstances"));
            (n.Err? ==> r == Err(n.error))
            && (n.Ok? ==>
                  var want := Constructed(PropertyArgs(properties, n.value), pickedPort);
                  (r.Err? <==> want.0.Err?) && (r.Err? ==> r.error == want.0.error)
                  && (r.Ok? ==> fresh(r.value) && r.value.State() == want.1))
  {
    var appId := Property(properties, "appId");
    var backendId := Property(properties, "backendId");
    var backendInstancesStr := Property(properties, "backendInstances");
    var backendInstances: int;
    if |backendInstancesStr| == 0 {
      backendInstances := 0;
    } else {
      var parsed := ParseJavaInt(backendInstancesStr);
      if parsed.None? {
        return Err(InstancesError(backendInstancesStr));
      }
      backendInstances := parsed.value;
    }
    var clusterHostname := Property(properties, "clusterHostname");
    var sdkDir := Property(properties, "sdkDir");
    var appDir := Property(properties, "appDir");
    var acHostname := Property(properties, "acHostname");
    var username := Property(properties, "username");
    var password := Property(properties, "password");
    r := NewConfig(InitArgs(appId, backendId, backendInstances, clusterHostname, sdkDir, appDir,
                            acHostname, username, password), pickedPort);
  }

  // ---------------------------------------------------------------------
  // Properties of parseAppId

  /** `split` on a string with exactly one separator that is not at the end yields the two sides. */
  lemma JavaSplitPair(a: string, b: string, c: char)
    requires c !in a && c !in b && b != []
    ensures c in a + [c] + b && JavaSplit(a + [c] + b, c) == [a, b]
  {
    assert (a + [c] + b)[|a|] == c;
    SplitPrefix(a, b, c);
    SplitFree(b, c);
  }

  /**
   * `parseAppId` of a non-empty id keeps the id verbatim; the partition is
   * the text before the `~`, the domain the text before the `:` in the
   * rest, and the display id what remains.  A field whose separator does
   * not occur keeps the value it had.
   */
  lemma ParseAppIdParts(s: ConfigState, p: PyConfig.AppIdParts)
    requires PyConfig.WellFormedParts(p) && p.display != ""
    ensures var (r, t) := ParsedAppId(s, PyConfig.ComposeAppId(p));
            r.Ok? && t.appId == PyConfig.ComposeAppId(p) && t.displayAppId == p.display
            && t.partition == (if p.partition.Some? then p.partition else s.partition)
            && t.domain == (if p.domain.Some? then p.domain else s.domain)
            && t == s.(appId := t.appId, displayAppId := t.displayAppId, partition := t.partition, domain := t.domain)
  {
    var rest := (if p.domain.Some? then p.domain.value + ":" else "") + p.display;
    var id := PyConfig.ComposeAppId(p);
    assert id == (if p.partition.Some? then p.partition.value + "~" else "") + rest;
    assert rest != [] && '~' !in rest;
    var partition := if p.partition.Some? then p.partition else s.partition;
    var domain := if p.domain.Some? then p.domain else s.domain;
    if p.domain.Some? {
      JavaSplitPair(p.domain.value, p.display, ':');
      assert rest == p.domain.value + [':'] + p.display;
      assert CutOff(rest, ':', s.domain) == (Ok(()), domain, p.display);
    } else {
      assert rest == p.display;
    }
    if p.partition.Some? {
      JavaSplitPair(p.partition.value, rest, '~');
      assert id == p.partition.value + ['~'] + rest;
    } else {
      assert id == rest;
    }
    assert CutOff(id, '~', s.partition) == (Ok(()), partition, rest);
    assert id != [];
    assert ParsedAppId(s, id)
        == (Ok(()), s.(appId := id, partition := partition, displayAppId := rest).(domain := domain, displayAppId := p.display));
  }

  /**
   * On the ids that both drivers accept, Java's `parseAppId` and Python's
   * `Config.__init__` find the same components, an absent partition or
   * domain reading as "" in Python and leaving Java's field as it was.
   */
  lemma AppIdAgreesWithPython(s: ConfigState, appId: string)
    requires PyConfig.SplitAppId(appId).Ok?
    requires var p := PyConfig.SplitAppId(appId).value; p.display != ""
    ensures var p := PyConfig.SplitAppId(appId).value;
            var (r, t) := ParsedAppId(s, appId);
            r.Ok? && t.displayAppId == p.display
            && t.partition == (if p.partition.Some? then p.partition else s.partition)
            && t.domain == (if p.domain.Some? then p.domain else s.domain)
  {
    var p := PyConfig.SplitAppId(appId).value;
    PyConfig.SplitAppIdSound(appId);
    ParseAppIdParts(s, p);
  }

  /**
   * An id ending in its only `~`, such as "s~", makes `parseAppId` fail on
   * `[1]`, after the partition was written; an id that is just "~" fails on
   * `[0]` and writes nothing but the id and the display id.
   */
  lemma ParseAppIdTrailingTilde(s: ConfigState, p: string)
    requires '~' !in p
    ensures var (r, t) := ParsedAppId(s, p + "~");
            (p != "" ==> r == Err(ArrayIndexOutOfBounds(1)) && t.partition == Some(p))
            && (p == "" ==> r == Err(ArrayIndexOutOfBounds(0)) && t.partition == s.partition)
            && t.appId == p + "~" && t.domain == s.domain
  {
    var id := p + "~";
    assert id[|p|] == '~';
    assert id == p + ['~'] + [];
    SplitPrefix(p, [], '~');
    assert Split(id, '~') == [p, []];
    assert StripTrailingEmpty([p, []]) == StripTrailingEmpty([p]);
  }

  /**
   * Unlike Python, which rejects a second `~`, `parseAppId` keeps the text
   * between the first two and drops the rest: `a~b~c` has display id `b`.
   */
  lemma ParseAppIdExtraPieces(s: ConfigState, a: string, b: string, c: string)
    requires '~' !in a && '~' !in b && ':' !in b && b != []
    ensures var (r, t) := ParsedAppId(s, a + "~" + b + "~" + c);
            r.Ok? && t.partition == Some(a) && t.displayAppId == b && t.domain == s.domain
  {
    var id := a + "~" + b + "~" + c;
    assert id == a + ['~'] + (b + ['~'] + c);
    assert id[|a|] == '~';
    SplitPrefix(a, b + ['~'] + c, '~');
    SplitPrefix(b, c, '~');
    var parts := Split(id, '~');
    assert parts == [a, b] + Split(c, '~');
    var r := StripTrailingEmpty(parts);
    assert parts[1] == b;
    assert |r| >= 2;
    assert r[0] == a && r[1] == b;
  }

  /** `parseAppId("")` writes "" into the id, the display id, the partition and the domain. */
  lemma ParseEmptyAppId(s: ConfigState)
    ensures ParsedAppId(s, "") == (Ok(()), s.(appId := "", displayAppId := "", partition := Some(""), domain := Some("")))
  {
  }

  // ---------------------------------------------------------------------
  // Properties of init

  /**
   * Without a cluster hostname `init` picks `localhost:<port>`, with 8080
   * when no free port was found, and configures a dev_appserver there: the
   * app hostname is the cluster hostname and there is no admin console.
   */
  lemma InitWithoutClusterHostname(s: ConfigState, a: InitArgs, pickedPort: int)
    requires a.clusterHostname == ""
    requires ParsedAppId(s, a.appId).0.Ok?
    ensures var (r, t) := Initialized(s, a, pickedPort);
            var port := if pickedPort == -1 then DEFAULT_DEVAPPSERVER_PORT else pickedPort;
            r.Ok? && t.clusterHostname == "localhost:" + IntToString(port)
            && t.appHostname == t.clusterHostname && t.acHostname == NO_AC_ON_SDK
  {
    LocalHostnameIsLocal(if pickedPort == -1 then DEFAULT_DEVAPPSERVER_PORT else pickedPort);
  }

  /**
   * For a production cluster the app hostname is `display.cluster`, or
   * `backend.display.cluster` with a backend, and the admin-console hostname
   * is kept as given; for a dev_appserver the app hostname is the cluster
   * hostname and the admin console is NO_AC_ON_SDK.
   */
  lemma InitHostnames(s: ConfigState, a: InitArgs, pickedPort: int)
    requires a.clusterHostname != "" && ParsedAppId(s, a.appId).0.Ok?
    ensures var (r, t) := Initialized(s, a, pickedPort);
            var display := ParsedAppId(s, a.appId).1.displayAppId;
            r.Ok? && t.clusterHostname == a.clusterHostname
            && (IsClusterAppserver(a.clusterHostname) ==>
                  t.acHostname == a.acHostname
                  && t.appHostname == (if a.backendId == "" then display + "." + a.clusterHostname
                                       else a.backendId + "." + display + "." + a.clusterHostname))
            && (!IsClusterAppserver(a.clusterHostname) ==>
                  t.appHostname == a.clusterHostname && t.acHostname == NO_AC_ON_SDK)
  {
  }

  /**
   * `init` copies the backend, the directories and the credentials as
   * given, and fails only when `parseAppId` does, leaving the fields other
   * than those `parseAppId` writes as they were.
   */
  lemma InitCopies(s: ConfigState, a: InitArgs, pickedPort: int)
    ensures var (r, t) := Initialized(s, a, pickedPort);
            var (pr, ps) := ParsedAppId(s, a.appId);
            (r.Err? <==> pr.Err?)
            && (r.Err? ==> r == pr && t == ps
                           && t.(appId := s.appId, displayAppId := s.displayAppId,
                                 partition := s.partition, domain := s.domain) == s)
            && (r.Ok? ==> t.appId == a.appId && t.backendId == a.backendId
                          && t.backendInstances == a.backendInstances
                          && t.sdkDir == a.sdkDir && t.appDir == a.appDir
                          && t.username == a.username && t.password == a.password)
  {
    if |a.appId| != 0 {
      var (r1, partition, display1) := CutOff(a.appId, '~', s.partition);
      if r1.Ok? {
        var (r2, domain, display2) := CutOff(display1, ':', s.domain);
      }
    }
  }

  /** The three-argument constructor sets every app id field to "" and names the given cluster. */
  lemma ShortConstructor(clusterHostname: string, sdkDir: string, appDir: string, pickedPort: int)
    ensures var (r, t) := Constructed(ShortInitArgs(clusterHostname, sdkDir, appDir), pickedPort);
            r.Ok? && t.appId == "" && t.displayAppId == "" && t.partition == Some("") && t.domain == Some("")
            && t.sdkDir == sdkDir && t.appDir == appDir && t.backendId == "" && t.backendInstances == 0
            && t.clusterHostname == ClusterHostnameFor(clusterHostname, pickedPort)
  {
  }

  // ---------------------------------------------------------------------
  // Properties of loadFromProperties

  /**
   * A missing `backendInstances` is 0; a value that is not a 32-bit
   * integer fails with InvalidConfigException, and a decimal rendering of
   * a 32-bit integer is read back as that integer.
   */
  lemma InstancesValues(text: string, n: int)
    requires MIN_INT32 <= n <= MAX_INT32
    ensures InstancesValue("") == Ok(0)
    ensures InstancesValue(IntToString(n)) == Ok(n)
    ensures InstancesValue(text).Err? <==> text != "" && ParseJavaInt(text).None?
    ensures InstancesValue(text).Err? ==> InstancesValue(text).error.InvalidConfigException?
  {
    ParseIntToString(n);
  }

  /** Keys missing from the properties read as "". */
  lemma MissingProperties(properties: map<string, string>)
    requires "backendInstances" !in properties
    ensures var a := PropertyArgs(properties, 0);
            InstancesValue(Property(properties, "backendInstances")) == Ok(0)
            && ("sdkDir" !in properties ==> a.sdkDir == "")
            && ("appDir" !in properties ==> a.appDir == "")
            && ("username" !in properties ==> a.username == "")
            && ("password" !in properties ==> a.password == "")
            && ("backendId" !in properties ==> a.backendId == "")
            && ("acHostname" !in properties ==> a.acHostname == "")
  {
  }
}
