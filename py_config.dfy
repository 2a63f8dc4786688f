/**
 * The Python driver's configuration: the `Config` record built by
 * `Config.__init__`, the decomposition of an application id into partition,
 * domain and display id, the appserver/dev_appserver test on a cluster
 * hostname, and the check that a configuration has the attributes an
 * operation needs.
 */
module PyConfig {
  import opened Wrappers
  import opened Text

  /** The Python values that reach the checked arguments. */
  datatype PyValue = PyNone | PyStr(s: string) | PyInt(i: int)
  {
    /** Python truthiness: `None`, `''` and `0` are false. */
    predicate Truthy() {
      match this
      case PyNone => false
      case PyStr(s) => s != []
      case PyInt(i) => i != 0
    }

    /** `'%s' % type(v)` under Python 2. */
    function TypeName(): string {
      match this
      case PyNone => "<type 'NoneType'>"
      case PyStr(_) => "<type 'str'>"
      case PyInt(_) => "<type 'int'>"
    }

    /** `'%s' % v`. */
    function Str(): string {
      match this
      case PyNone => "None"
      case PyStr(s) => s
      case PyInt(i) => IntToString(i)
    }
  }

  /** The exceptions the modelled code raises, with the text it gives them. */
  datatype Error =
    | TypeError(message: string)
    | ValueError(message: string)
    | AttributeError(name: string)
    | IOError(path: string)
    | OSError(path: string)
    | AppcfgError(message: string)
    | AssertionError

  /** Python's message when a split yields more pieces than names to unpack. */
  const TOO_MANY_VALUES: string := "too many values to unpack"

  const NO_ADMIN_CONSOLE_ON_SDK: string := "ADMIN_CONSOLE_NOT_AVAILABLE_FOR_SDK"
  const DEFAULT_AC_HOSTNAME: string := "appengine.google.com"
  const LOCALHOST: string := "localhost"

  /**
   * `is_cluster_appserver`: a cluster hostname names a production appserver
   * unless it starts with "localhost"; a non-string is a TypeError.
   */
  function IsClusterAppserver(clusterHostname: PyValue): (r: Result<bool, Error>)
    ensures r.Err? <==> !clusterHostname.PyStr?
    ensures r.Err? ==> r.error == TypeError("\"cluster_hostname\" must be a string, not " + clusterHostname.TypeName())
    ensures r.Ok? ==> (r.value <==> !StartsWith(clusterHostname.s, LOCALHOST))
  {
    if !clusterHostname.PyStr? then
      Err(TypeError("\"cluster_hostname\" must be a string, not " + clusterHostname.TypeName()))
    else
      Ok(!StartsWith(clusterHostname.s, LOCALHOST))
  }

  // ---------------------------------------------------------------------
  // Application ids: [(partition)~][(domain):](display-app-id)

  /** The three components of an application id; absent ones are `None`. */
  datatype AppIdParts = AppIdParts(partition: Option<string>, domain: Option<string>, display: string)

  /** The components can be written as an id and read back unambiguously. */
  predicate WellFormedParts(p: AppIdParts) {
    (p.partition.Some? ==> '~' !in p.partition.value)
    && (p.domain.Some? ==> '~' !in p.domain.value && ':' !in p.domain.value)
    && '~' !in p.display && ':' !in p.display
  }

  /** The application id made of the given components. */
  function ComposeAppId(p: AppIdParts): string {
    (if p.partition.Some? then p.partition.value + "~" else "")
    + (if p.domain.Some? then p.domain.value + ":" else "")
    + p.display
  }

  /**
   * Lines 216-218 of `Config.__init__`: split off the domain at ':'; a
   * second ':' makes the two-name unpacking raise ValueError.
   */
  function SplitDomain(s: string): (r: Result<(Option<string>, string), Error>)
    ensures r.Err? ==> r.error == ValueError(TOO_MANY_VALUES)
  {
    var colon := Split(s, ':');
    if ':' in s && |colon| != 2 then Err(ValueError(TOO_MANY_VALUES))
    else if ':' in s then Ok((Some(colon[0]), colon[1]))
    else Ok((None, s))
  }

  /**
   * Lines 209-218 of `Config.__init__`: split off the partition at '~', then
   * the domain at ':'; a second separator of either kind makes the two-name
   * unpacking raise ValueError.
   */
  function SplitAppId(appId: string): (r: Result<AppIdParts, Error>)
    ensures r.Err? ==> r.error == ValueError(TOO_MANY_VALUES)
  {
    var tilde := Split(appId, '~');
    if '~' in appId && |tilde| != 2 then Err(ValueError(TOO_MANY_VALUES))
    else
      var partition := if '~' in appId then Some(tilde[0]) else None;
      var rest := if '~' in appId then tilde[1] else appId;
      match SplitDomain(rest)
      case Err(e) => Err(e)
      case Ok((domain, display)) => Ok(AppIdParts(partition, domain, display))
  }

  /** A string split at its only separator is the text before and after it. */
  lemma SplitTwo(s: string, c: char)
    requires |Split(s, c)| == 2
    ensures s == Split(s, c)[0] + [c] + Split(s, c)[1]
    ensures c !in Split(s, c)[0] && c !in Split(s, c)[1]
  {
    JoinSplit(s, c);
    SplitPiecesFree(s, c);
    var p := Split(s, c);
    assert p[1..] == [p[1]];
  }

  /** A character absent from `a + [c] + b` is absent from `a` and from `b`. */
  lemma AbsentFromParts(a: string, c: char, b: string, ch: char)
    requires ch !in a + [c] + b
    ensures ch !in a && ch !in b
  {
    assert forall i | 0 <= i < |a| :: (a + [c] + b)[i] == a[i];
    assert forall i | 0 <= i < |b| :: (a + [c] + b)[|a| + 1 + i] == b[i];
  }

  /** What SplitDomain accepts it splits into a domain and a display id of the text. */
  lemma SplitDomainSound(s: string)
    requires SplitDomain(s).Ok?
    ensures var (d, x) := SplitDomain(s).value;
            ':' !in x
            && (d.None? ==> x == s)
            && (d.Some? ==> s == d.value + ":" + x && ':' !in d.value
                            && ('~' !in s ==> '~' !in d.value && '~' !in x))
  {
    if ':' in s {
      SplitTwo(s, ':');
      var colon := Split(s, ':');
      if '~' !in s {
        AbsentFromParts(colon[0], ':', colon[1], '~');
      }
    }
  }

  /** What SplitAppId accepts it decomposes into well-formed components of the id. */
  lemma SplitAppIdSound(appId: string)
    requires SplitAppId(appId).Ok?
    ensures WellFormedParts(SplitAppId(appId).value)
    ensures ComposeAppId(SplitAppId(appId).value) == appId
  {
    var p := SplitAppId(appId).value;
    ComposeIsTail(p);
    if '~' in appId {
      var tilde := Split(appId, '~');
      SplitTwo(appId, '~');
      var rest := tilde[1];
      assert SplitDomain(rest).Ok?;
      SplitDomainSound(rest);
      assert p.partition == Some(tilde[0]);
      assert (p.domain, p.display) == SplitDomain(rest).value;
      assert AppIdTail(p) == rest;
    } else {
      assert SplitDomain(appId).Ok?;
      SplitDomainSound(appId);
      assert p.partition == None;
      assert (p.domain, p.display) == SplitDomain(appId).value;
      assert AppIdTail(p) == appId;
    }
  }

  /** The part of an id after the partition: domain and display id. */
  function AppIdTail(p: AppIdParts): string {
    (if p.domain.Some? then p.domain.value + ":" else "") + p.display
  }

  /** An id is its partition prefix followed by its tail. */
  lemma ComposeIsTail(p: AppIdParts)
    ensures ComposeAppId(p) == (if p.partition.Some? then p.partition.value + "~" else "") + AppIdTail(p)
  {
    var a := if p.partition.Some? then p.partition.value + "~" else "";
    var b := if p.domain.Some? then p.domain.value + ":" else "";
    SeqAssoc(a, b, p.display);
  }

  lemma ComposeTail(p: AppIdParts)
    requires WellFormedParts(p)
    ensures '~' !in AppIdTail(p)
    ensures SplitDomain(AppIdTail(p)) == Ok((p.domain, p.display))
  {
    var tail := AppIdTail(p);
    if p.domain.Some? {
      var d := p.domain.value;
      assert tail == d + [':'] + p.display;
      assert tail[|d|] == ':';
      SplitPrefix(d, p.display, ':');
      SplitFree(p.display, ':');
    } else {
      assert tail == p.display;
      SplitFree(p.display, ':');
    }
  }

  /** Well-formed components survive a round trip through their id. */
  lemma SplitComposeAppId(p: AppIdParts)
    requires WellFormedParts(p)
    ensures SplitAppId(ComposeAppId(p)) == Ok(p)
  {
    var tail := AppIdTail(p);
    ComposeIsTail(p);
    ComposeTail(p);
    if p.partition.Some? {
      var x := p.partition.value;
      var id := x + ['~'] + tail;
      assert ComposeAppId(p) == id;
      assert id[|x|] == '~';
      SplitPrefix(x, tail, '~');
      SplitFree(tail, '~');
      assert Split(id, '~') == [x, tail];
    } else {
      assert ComposeAppId(p) == tail;
    }
  }

  /** An id is accepted exactly when it is composed of well-formed components. */
  lemma SplitAppIdOkIff(appId: string)
    ensures SplitAppId(appId).Ok? <==> exists p :: WellFormedParts(p) && ComposeAppId(p) == appId
  {
    if SplitAppId(appId).Ok? {
      SplitAppIdSound(appId);
    }
    if exists p :: WellFormedParts(p) && ComposeAppId(p) == appId {
      var p :| WellFormedParts(p) && ComposeAppId(p) == appId;
      SplitComposeAppId(p);
    }
  }

  /** Two partition separators always make the unpacking fail. */
  lemma SplitAppIdTwoTildes(appId: string)
    requires Count(appId, '~') >= 2
    ensures SplitAppId(appId) == Err(ValueError(TOO_MANY_VALUES))
  {
    SplitLength(appId, '~');
    CountPositive(appId, '~');
  }

  // ---------------------------------------------------------------------
  // Config

  /** The attributes of a `Config` object after `__init__`. */
  datatype Config = Config(
    appId: string,
    displayAppId: string,
    domain: string,
    partition: string,
    backendId: string,
    backendInstances: int,
    clusterHostname: string,
    appHostname: string,
    acHostname: string,
    sdkDir: string,
    appDir: string,
    username: string,
    password: string,
    appcfgFlags: string)

  /**
   * The keyword arguments of `Config(...)`: the two required ones as any
   * Python value, the optional ones as `None` or a value of their type.
   */
  datatype ConfigArgs = ConfigArgs(
    appId: PyValue,
    clusterHostname: PyValue,
    backendId: Option<string>,
    backendInstances: Option<int>,
    sdkDir: Option<string>,
    appDir: Option<string>,
    username: Option<string>,
    password: Option<string>,
    acHostname: Option<string>,
    appcfgFlags: Option<string>)

  /** `Config(app_id, cluster_hostname)` with every optional argument left out. */
  function DefaultArgs(appId: PyValue, clusterHostname: PyValue): ConfigArgs {
    ConfigArgs(appId, clusterHostname, None, None, None, None, None, None, None, None)
  }

  /** `v if v else ''` for an optional string. */
  function OrEmpty(v: Option<string>): string {
    if v.Some? then v.value else ""
  }

  /** The hostname of a production app: `[backend.]display.cluster`. */
  function ProductionHostname(backendId: string, display: string, cluster: string): string {
    (if backendId == "" then "" else backendId + ".") + display + "." + cluster
  }

  /** `Config.__init__`. */
  function NewConfig(a: ConfigArgs): (r: Result<Config, Error>)
    ensures r.Err? && r.error.TypeError? <==> !a.appId.PyStr? || !a.clusterHostname.PyStr?
  {
    if !a.appId.PyStr? then
      Err(TypeError("\"app_id\" must be a string, not " + a.appId.TypeName()))
    else if !a.clusterHostname.PyStr? then
      // The message formats the type of `app_id`, as the source does.
      Err(TypeError("\"cluster_hostname\" must be a string, not " + a.appId.TypeName()))
    else
      match SplitAppId(a.appId.s)
      case Err(e) => Err(e)
      case Ok(parts) =>
        var cluster := a.clusterHostname.s;
        var backendId := OrEmpty(a.backendId);
        var display := parts.display;
        var remote := IsClusterAppserver(a.clusterHostname).value;
        Ok(Config(
          appId := a.appId.s,
          displayAppId := display,
          domain := parts.domain.GetOr(""),
          partition := parts.partition.GetOr(""),
          backendId := backendId,
          backendInstances := if a.backendInstances.Some? then a.backendInstances.value else 0,
          clusterHostname := cluster,
          appHostname := if remote then ProductionHostname(backendId, display, cluster) else cluster,
          acHostname :=
            if !remote then NO_ADMIN_CONSOLE_ON_SDK
            else if OrEmpty(a.acHostname) != "" then OrEmpty(a.acHostname)
            else DEFAULT_AC_HOSTNAME,
          sdkDir := OrEmpty(a.sdkDir),
          appDir := OrEmpty(a.appDir),
          username := OrEmpty(a.username),
          password := OrEmpty(a.password),
          appcfgFlags := OrEmpty(a.appcfgFlags)))
  }

  /**
   * The non-string errors: `app_id` is checked first, and the message for a
   * bad `cluster_hostname` names the type of `app_id`.
   */
  lemma NewConfigTypeErrors(a: ConfigArgs)
    ensures !a.appId.PyStr? ==>
      NewConfig(a) == Err(TypeError("\"app_id\" must be a string, not " + a.appId.TypeName()))
    ensures a.appId.PyStr? && !a.clusterHostname.PyStr? ==>
      NewConfig(a) == Err(TypeError("\"cluster_hostname\" must be a string, not " + a.appId.TypeName()))
      && a.appId.TypeName() == "<type 'str'>"
  {
  }

  /** With string arguments, construction fails exactly on a malformed app id. */
  lemma NewConfigOkIff(a: ConfigArgs)
    requires a.appId.PyStr? && a.clusterHostname.PyStr?
    ensures NewConfig(a).Ok? <==> exists p :: WellFormedParts(p) && ComposeAppId(p) == a.appId.s
    ensures NewConfig(a).Err? ==> NewConfig(a).error == ValueError(TOO_MANY_VALUES)
  {
    SplitAppIdOkIff(a.appId.s);
  }

  /**
   * The id attributes of a built configuration decompose `app_id`: they are
   * well-formed components of it, an absent partition or domain being the
   * empty string.
   */
  lemma NewConfigAppId(a: ConfigArgs)
    requires NewConfig(a).Ok?
    ensures var c := NewConfig(a).value;
            c.appId == a.appId.s
            && exists p :: WellFormedParts(p) && ComposeAppId(p) == c.appId
                 && c.partition == p.partition.GetOr("") && c.domain == p.domain.GetOr("")
                 && c.displayAppId == p.display
  {
    SplitAppIdSound(a.appId.s);
    var p := SplitAppId(a.appId.s).value;
    var c := NewConfig(a).value;
    assert c.partition == p.partition.GetOr("") && c.domain == p.domain.GetOr("") && c.displayAppId == p.display;
  }

  /**
   * Where the application is reached: on a production cluster at
   * `[backend.]display.cluster` with the given or the default admin console;
   * on a dev_appserver (a hostname starting with "localhost") at the cluster
   * hostname itself, with no admin console.
   */
  lemma NewConfigHostnames(a: ConfigArgs)
    requires NewConfig(a).Ok?
    ensures var c := NewConfig(a).value;
            c.clusterHostname == a.clusterHostname.s
            && (StartsWith(c.clusterHostname, LOCALHOST) ==>
                  c.appHostname == c.clusterHostname && c.acHostname == NO_ADMIN_CONSOLE_ON_SDK)
            && (!StartsWith(c.clusterHostname, LOCALHOST) ==>
                  c.appHostname == ProductionHostname(c.backendId, c.displayAppId, c.clusterHostname)
                  && c.acHostname == (if OrEmpty(a.acHostname) != "" then a.acHostname.value else DEFAULT_AC_HOSTNAME))
  {
  }

  /**
   * A production hostname names the backend (when there is one), then the
   * display id, then the cluster, separated by dots.
   */
  lemma ProductionHostnameShape(backendId: string, display: string, cluster: string)
    ensures var h := ProductionHostname(backendId, display, cluster);
            (backendId != "" ==> StartsWith(h, backendId + "."))
            && (backendId == "" ==> StartsWith(h, display + "."))
            && |h| >= |cluster| + 1 && h[|h| - |cluster| - 1..] == "." + cluster
  {
    var h := ProductionHostname(backendId, display, cluster);
    var pre := if backendId == "" then "" else backendId + ".";
    assert h == (pre + display) + ("." + cluster);
    if backendId != "" {
      assert h == (backendId + ".") + (display + "." + cluster);
    } else {
      assert h == (display + ".") + cluster;
    }
  }

  /**
   * Every optional argument that is left out or falsy becomes the empty
   * string (0 for the instance count); a truthy one is kept as given.
   */
  lemma NewConfigDefaults(a: ConfigArgs)
    requires NewConfig(a).Ok?
    ensures var c := NewConfig(a).value;
            c.backendId == OrEmpty(a.backendId)
            && (a.backendInstances.Some? ==> c.backendInstances == a.backendInstances.value)
            && (a.backendInstances.None? ==> c.backendInstances == 0)
            && c.sdkDir == OrEmpty(a.sdkDir) && c.appDir == OrEmpty(a.appDir)
            && c.username == OrEmpty(a.username) && c.password == OrEmpty(a.password)
            && c.appcfgFlags == OrEmpty(a.appcfgFlags)
  {
  }

  // ---------------------------------------------------------------------
  // Required attributes

  /** The attributes of a `Config` that operations can require. */
  datatype AttrName =
    | AppId | DisplayAppId | Domain | Partition | BackendId | BackendInstances | ClusterHostname
    | AppHostname | AcHostname | SdkDir | AppDir | Username | Password | AppcfgFlags
  {
    /** The attribute's Python name. */
    function Name(): string {
      match this
      case AppId => "app_id"
      case DisplayAppId => "display_app_id"
      case Domain => "domain"
      case Partition => "partition"
      case BackendId => "backend_id"
      case BackendInstances => "backend_instances"
      case ClusterHostname => "cluster_hostname"
      case AppHostname => "app_hostname"
      case AcHostname => "ac_hostname"
      case SdkDir => "sdk_dir"
      case AppDir => "app_dir"
      case Username => "username"
      case Password => "password"
      case AppcfgFlags => "appcfg_flags"
    }
  }

  /** `getattr(config, name)`. */
  function Attr(c: Config, name: AttrName): (r: PyValue)
    ensures r.PyInt? <==> name == BackendInstances
  {
    match name
    case AppId => PyStr(c.appId)
    case DisplayAppId => PyStr(c.displayAppId)
    case Domain => PyStr(c.domain)
    case Partition => PyStr(c.partition)
    case BackendId => PyStr(c.backendId)
    case BackendInstances => PyInt(c.backendInstances)
    case ClusterHostname => PyStr(c.clusterHostname)
    case AppHostname => PyStr(c.appHostname)
    case AcHostname => PyStr(c.acHostname)
    case SdkDir => PyStr(c.sdkDir)
    case AppDir => PyStr(c.appDir)
    case Username => PyStr(c.username)
    case Password => PyStr(c.password)
    case AppcfgFlags => PyStr(c.appcfgFlags)
  }

  /** The attribute is truthy. */
  predicate IsSet(c: Config, name: AttrName) {
    Attr(c, name).Truthy()
  }

  /** What checking an attribute that is not set raises. */
  function UnsetError(name: AttrName): Error {
    ValueError("\"config." + name.Name() + "\" has to be set.")
  }

  /**
   * `_check_required_config_attr` as a value: success when every attribute
   * is set, otherwise the error for the first one that is not.
   */
  function CheckRequired(c: Config, names: seq<AttrName>): (r: Result<(), Error>)
    ensures r.Ok? <==> forall k | 0 <= k < |names| :: IsSet(c, names[k])
  {
    if names == [] then Ok(())
    else if !IsSet(c, names[0]) then Err(UnsetError(names[0]))
    else
      assert forall k | 1 <= k < |names| :: names[k] == names[1..][k - 1];
      CheckRequired(c, names[1..])
  }

  /** The check depends only on which of the named attributes are set. */
  lemma {:induction false} CheckRequiredSameSet(c: Config, d: Config, names: seq<AttrName>)
    requires forall k | 0 <= k < |names| :: IsSet(c, names[k]) == IsSet(d, names[k])
    ensures CheckRequired(c, names) == CheckRequired(d, names)
  {
    if names != [] {
      assert IsSet(c, names[0]) == IsSet(d, names[0]);
      assert forall k | 0 <= k < |names[1..]| :: names[1..][k] == names[k + 1];
      CheckRequiredSameSet(c, d, names[1..]);
    }
  }

  /** A failed check reports the first attribute that is not set. */
  lemma {:induction false} CheckRequiredFirst(c: Config, names: seq<AttrName>)
    requires CheckRequired(c, names).Err?
    ensures exists k | 0 <= k < |names| ::
              !IsSet(c, names[k]) && CheckRequired(c, names).error == UnsetError(names[k])
              && forall j | 0 <= j < k :: IsSet(c, names[j])
  {
    if IsSet(c, names[0]) {
      CheckRequiredFirst(c, names[1..]);
      var k :| 0 <= k < |names[1..]| && !IsSet(c, names[1..][k])
               && CheckRequired(c, names[1..]).error == UnsetError(names[1..][k])
               && forall j | 0 <= j < k :: IsSet(c, names[1..][j]);
      assert forall j | 1 <= j < k + 1 :: names[j] == names[1..][j - 1];
      assert !IsSet(c, names[k + 1]) && forall j | 0 <= j < k + 1 :: IsSet(c, names[j]);
    } else {
      assert !IsSet(c, names[0]);
    }
  }

  /** `_check_required_config_attr`: the loop over the attribute names. */
  method CheckRequiredConfigAttr(c: Config, names: seq<AttrName>) returns (r: Result<(), Error>)
    ensures r == CheckRequired(c, names)
  {
    var i := 0;
    while i < |names|
      invariant 0 <= i <= |names|
      invariant forall k | 0 <= k < i :: IsSet(c, names[k])
      invariant CheckRequired(c, names) == CheckRequired(c, names[i..])
    {
      if !IsSet(c, names[i]) {
        return Err(UnsetError(names[i]));
      }
      assert names[i..][1..] == names[i + 1..];
      i := i + 1;
    }
    return Ok(());
  }
}
