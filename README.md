# gaedriver, modelled in Dafny

gaedriver is a test harness for App Engine applications, with a Python and a
Java driver. It either deploys an application to a production cluster with
the `appcfg` tool or runs it on a local dev_appserver. Afterwards it undoes
whichever it did. This project models the deterministic core of both drivers
and proves properties of that model.

**Python driver** (`py/src/gaedriver/gaedriver.py`):

- **`PyConfig`** models `Config.__init__`. It splits the app id into
  `[partition~][domain:]display`, and decides production versus
  dev_appserver with `is_cluster_appserver`. It derives the app and
  admin-console hostnames, and it models the check of required attributes.
- **`PyFiles`** holds the file system as a map from paths to contents
  (`FileSystem`). It models the rewrite and restore of `app.yaml`, and the
  creation and restore of `backends.yaml`.
- **`PyAppcfg`** models the `run_appcfg_with_auth` command line and the
  `update_app` retry loop. Started processes are a `Processes` object: it
  records each command line and answers with an output an outside function
  assigns to the n-th call. **`PyUpdate`** proves properties of that loop.
- **`PyDevAppServer`** models the `DevAppServerThread` class.
- **`PySetup`** models `setup_app` and `teardown_app`.

**Java driver** (`java/src/main/java/com/google/appengine/contrib/gaedriver/`):

- **`JavaUtils`** models `isClusterAppserver` and the two-pass scan of
  `pickUnusedPort`. Whether a port can be bound is a predicate, and the
  random start is a parameter.
- **`JavaConfig`** holds the `Config` class, whose `init` and `parseAppId`
  write fields one after another. It also models the constructors,
  `loadFromProperties` and the setters.
- **`JavaDevAppServer`** models `DevAppserverThread.init`, which splits the
  host from the port, and `buildArgumentList`.
- **`JavaAppcfg`** models `AppcfgThread.buildArgumentList` and the
  `updateApp` retry and rollback loop. One run of appcfg is an oracle that
  gives the exit status, standard output and standard error of the n-th
  run.

`Wrappers` (Option and Result) and `Text` are shared by both drivers.
`Text` holds the string operations the drivers rely on: Python `str.split`,
Java `String.split` (which drops trailing empty pieces), `Integer.valueOf`
on 32-bit integers, `indexOf`, lines, and ASCII lower case.

The two drivers do not read app ids the same way. Python unpacks
`split('~')` into two names, so `a~b~c` raises ValueError. Java keeps the
piece after the first `~` and drops the rest, so `a~b~c` has display id `b`
(`JavaConfig.ParseAppIdExtraPieces`). Java also fails on `s~` with an
ArrayIndexOutOfBoundsException, after it has already written the partition
(`JavaConfig.ParseAppIdTrailingTilde`). On ids Python accepts whose display
id is not empty, Java finds the same display id, and the same partition and
domain whenever the id has them. For an absent one, Python sets "" while Java
keeps the field's old value, null on a new object
(`JavaConfig.AppIdAgreesWithPython`).

## Model

| member | source | states |
|---|---|---|
| PyConfig.IsClusterAppserver | py/src/gaedriver/gaedriver.py:131-137 | A non-string is a TypeError naming its type. A string names an appserver exactly when it does not start with "localhost". |
| PyConfig.SplitAppId | py/src/gaedriver/gaedriver.py:215-218 | Every failure of the split is the ValueError "too many values to unpack". |
| PyConfig.SplitDomainSound | py/src/gaedriver/gaedriver.py:217-218 | An accepted text is `domain:display`, neither side holding ':', or has no domain and is all display. |
| PyConfig.SplitAppIdSound | py/src/gaedriver/gaedriver.py:212-218 | An accepted id decomposes into well-formed partition, domain and display id, and composing them gives back the id. |
| PyConfig.SplitComposeAppId | py/src/gaedriver/gaedriver.py:212-218 | Well-formed components survive a round trip through their id. |
| PyConfig.SplitAppIdOkIff | py/src/gaedriver/gaedriver.py:215-218 | An id is accepted exactly when it is composed of well-formed components. |
| PyConfig.SplitAppIdTwoTildes | py/src/gaedriver/gaedriver.py:215-216 | Two or more '~' always raise ValueError. |
| PyConfig.NewConfig | py/src/gaedriver/gaedriver.py:198-202 | Construction raises TypeError exactly when the app id or the cluster hostname is not a string. |
| PyConfig.NewConfigTypeErrors | py/src/gaedriver/gaedriver.py:198-202 | The app id is checked first. The message for a bad cluster hostname names the type of the app id. |
| PyConfig.NewConfigOkIff | py/src/gaedriver/gaedriver.py:198-218 | With string arguments, construction succeeds exactly on a well-formed app id, and otherwise raises ValueError. |
| PyConfig.NewConfigAppId | py/src/gaedriver/gaedriver.py:203-218 | The id attributes are well-formed components of the app id, an absent partition or domain being "". |
| PyConfig.NewConfigHostnames | py/src/gaedriver/gaedriver.py:219-240 | Production: the app host is `[backend.]display.cluster`, with the given admin console or appengine.google.com. Local: the app host is the cluster itself, with no admin console. |
| PyConfig.ProductionHostnameShape | py/src/gaedriver/gaedriver.py:223-229 | A production hostname starts with the backend (or the display id) and a dot, and ends with "." and the cluster. |
| PyConfig.NewConfigDefaults | py/src/gaedriver/gaedriver.py:204-246 | Optional arguments that are absent or falsy become "" (the instance count 0). Truthy ones are kept. |
| PyConfig.Attr | py/src/gaedriver/gaedriver.py:111 | `getattr` gives an integer for `backend_instances` and a string for every other attribute. |
| PyConfig.CheckRequired | py/src/gaedriver/gaedriver.py:110-112 | The check passes exactly when every named attribute is truthy. |
| PyConfig.CheckRequiredFirst | py/src/gaedriver/gaedriver.py:110-112 | A failed check names the first attribute that is not set, and all attributes before it are set. |
| PyConfig.CheckRequiredSameSet | py/src/gaedriver/gaedriver.py:110-112 | Two configs that agree on which named attributes are set get the same check result. |
| PyConfig.CheckRequiredConfigAttr | py/src/gaedriver/gaedriver.py:100-112 | The loop returns what CheckRequired specifies. |
| PyFiles.FileSystem.Copy | py/src/gaedriver/gaedriver.py:494 | Copying gives the destination the source's content. A missing source is an IOError and changes nothing. |
| PyFiles.FileSystem.Remove | py/src/gaedriver/gaedriver.py:506 | Removing deletes the path. A missing path is an OSError and changes nothing. |
| PyFiles.FileSystem.Discard | py/src/gaedriver/gaedriver.py:495-502 | The in-place rewrite's `.bak` file is gone afterwards, whether or not it was there. |
| PyFiles.FileSystem.Write | py/src/gaedriver/gaedriver.py:563-565 | Writing a path sets its content and leaves every other path alone. |
| PyFiles.PathJoinInjective | py/src/gaedriver/gaedriver.py:451-453 | Joining one directory with two different relative names gives two different paths. |
| PyFiles.DriverPathsDistinct | py/src/gaedriver/gaedriver.py:451-453 | app.yaml, its `.e2e` backup and its `.bak` are three paths. backends.yaml and its backup are two. |
| PyFiles.PatchedContentLines | py/src/gaedriver/gaedriver.py:495-502 | The rewritten app.yaml has as many lines as before. Every `application:` line names the app id, and every other line is unchanged. |
| PyFiles.PatchedContentIdempotent | py/src/gaedriver/gaedriver.py:495-502 | Rewriting an already rewritten app.yaml changes nothing. |
| PyFiles.PatchedContentUnchanged | py/src/gaedriver/gaedriver.py:495-502 | A newline-terminated file without an `application:` line is written back unchanged. |
| PyFiles.RestoreAfterReplace | py/src/gaedriver/gaedriver.py:483-508 | Replacing then restoring app.yaml gives back the original files, minus a stale backup or `.bak`. |
| PyFiles.ReplaceKeepsOriginal | py/src/gaedriver/gaedriver.py:494-502 | After the rewrite the backup holds the original app.yaml, app.yaml holds the patched content, and other files are untouched. |
| PyFiles.BackendsYamlReadsBack | py/src/gaedriver/gaedriver.py:554-564 | The generated backends.yaml reads back as its four lines. A zero instance count is written as 2. |
| PyFiles.RestoreAfterCreateBackends | py/src/gaedriver/gaedriver.py:538-583 | An existing backends.yaml comes back unchanged after create and restore. Without one (and no stale backup), the generated file stays. |
| PyFiles.CreateBackendsYaml | py/src/gaedriver/gaedriver.py:538-565 | The new file system is the specified one: any old backends.yaml is backed up, then the file is written. |
| PyFiles.RestoreBackendsYaml | py/src/gaedriver/gaedriver.py:568-583 | With a backup, it is copied back and removed. Otherwise nothing changes. |
| PyAppcfg.Processes.Communicate | py/src/gaedriver/gaedriver.py:362-365 | One process is started with the command line and the input, and its output is the oracle's answer for that call. |
| PyAppcfg.PyList.Remove | py/src/gaedriver/gaedriver.py:357-358 | `list.remove` drops the first occurrence, or raises ValueError and changes nothing. |
| PyAppcfg.BackendArgsDropsAppDir | py/src/gaedriver/gaedriver.py:357-358 | A backend command's arguments lose one copy of the app directory and keep every other argument. |
| PyAppcfg.AppcfgArgvErrors | py/src/gaedriver/gaedriver.py:331-361 | Two failures, in this order: an unset required attribute (ValueError), then a backend with no argument list (TypeError). Otherwise the command line is ArgvFor. |
| PyAppcfg.ArgvPasswordFree | py/src/gaedriver/gaedriver.py:331-365 | The command line does not depend on the password, which goes only to standard input under `--passin`. This holds for ArgvFor, and for AppcfgArgv when both passwords are set. |
| PyAppcfg.ArgvForShape | py/src/gaedriver/gaedriver.py:333-361 | Tool and auth flags come first, then the options in order. A frontend ends with `action args`; a backend with `backends app_dir action args`. |
| PyAppcfg.AppendEach | py/src/gaedriver/gaedriver.py:340-341 | The loop appends the items in order. |
| PyAppcfg.BuildArgvPrefix | py/src/gaedriver/gaedriver.py:333-345 | The successive appends build the head plus the application, extra, server and option flags. |
| PyAppcfg.AppendActionBlock | py/src/gaedriver/gaedriver.py:346-361 | It appends the action block, or raises TypeError for a backend without arguments. A backend's caller list loses the app directory. |
| PyAppcfg.RunAppcfgWithAuth | py/src/gaedriver/gaedriver.py:311-366 | It either raises the AppcfgArgv error, starting nothing, or starts exactly that command line with the password as input. It returns (output, None). |
| PyAppcfg.ShortUsernameShape | py/src/gaedriver/gaedriver.py:394 | The short user name is the text before the first '@', or all of it when there is none. |
| PyAppcfg.ConflictReportedIff | py/src/gaedriver/gaedriver.py:397-401 | The computed test agrees with the pattern: the head for the user occurs, and the tail occurs after it. |
| PyAppcfg.UpdateFromPass | py/src/gaedriver/gaedriver.py:398-416 | How one pass's outcome decides the rest of the loop: raise, return, or continue after a rollback. |
| PyAppcfg.RunUpdate | py/src/gaedriver/gaedriver.py:399-400 | The update is started once with `[app_dir]`, or its configuration error is raised without starting anything. |
| PyAppcfg.RunRollback | py/src/gaedriver/gaedriver.py:402-407 | The rollback is started once, with the backend or else the app directory, and cannot fail its check. |
| PyAppcfg.UpdateAttempt | py/src/gaedriver/gaedriver.py:399-416 | One pass does what Pass specifies and starts exactly the processes it lists. |
| PyAppcfg.UpdatePass | py/src/gaedriver/gaedriver.py:398-416 | One pass, seen from the rest of the run, with one attempt fewer left. |
| PyAppcfg.UpdateRetries | py/src/gaedriver/gaedriver.py:392-417 | The loop returns and starts exactly what UpdateFrom specifies. |
| PyAppcfg.UpdateApp | py/src/gaedriver/gaedriver.py:369-417 | `update_app` returns or raises, and starts processes, as UpdateAppRun specifies. |
| PyUpdate.UpdateLoopCalls | py/src/gaedriver/gaedriver.py:398-410 | Calls alternate update, rollback, update, and so on. There are at most two per attempt, and at least one when an attempt is left. |
| PyUpdate.UpdateLoopOutput | py/src/gaedriver/gaedriver.py:396-417 | A run that ends without error returns the output of the last process it started, with stderr None. |
| PyUpdate.UpdateLoopClean | py/src/gaedriver/gaedriver.py:414-416 | A clean update ends the loop after one process. |
| PyUpdate.UpdateLoopUpdateFails | py/src/gaedriver/gaedriver.py:411-413 | An update mentioning "Error" without a conflict raises "Could not update : <output>". |
| PyUpdate.UpdateLoopRollbackFails | py/src/gaedriver/gaedriver.py:406-409 | A rollback mentioning "Error" raises "Could not rollback: <output>" after two processes. |
| PyUpdate.UpdateLoopExhausted | py/src/gaedriver/gaedriver.py:398-410 | When every update conflicts and every rollback is clean, the loop returns the last rollback's output after 2·retries processes, without raising. |
| PyUpdate.UpdateAppNoRetries | py/src/gaedriver/gaedriver.py:390-398 | With no retries, nothing is started and the result is (None, None), after the configuration check. |
| PyUpdate.UpdateAppRequires | py/src/gaedriver/gaedriver.py:390-391 | A missing app directory or user name is a ValueError before any process starts. |
| PyDevAppServer.ProcessTable.Spawn | py/src/gaedriver/gaedriver.py:520-522 | Starting a process records its command line and sends no signal. |
| PyDevAppServer.ProcessTable.Kill | py/src/gaedriver/gaedriver.py:534 | Killing records the pid and the signal and starts nothing. |
| PyDevAppServer.PortOption | py/src/gaedriver/gaedriver.py:469-473 | A hostname without ':' gives the empty port option. |
| PyDevAppServer.DevAppserverArgv | py/src/gaedriver/gaedriver.py:464-468 | ValueError exactly when the app hostname has more than one colon, with the hostname in the message. |
| PyDevAppServer.DevAppserverArgvShape | py/src/gaedriver/gaedriver.py:469-481 | The tool, the update-check switch, the port option, `--clear_datastore` when asked, the options, then the app directory last. |
| PyDevAppServer.LocalPort | py/src/gaedriver/gaedriver.py:469-473 | `localhost:<port>` gives the option `--port=<port>`. |
| PyDevAppServer.PatchAppYaml | py/src/gaedriver/gaedriver.py:495-502 | The line loop prints exactly the patched content. |
| PyDevAppServer.DevAppServerThread.constructor | py/src/gaedriver/gaedriver.py:444-453 | The fields: the config, the options (None gives []), the clear-datastore flag, and no pid. |
| PyDevAppServer.DevAppServerThread.ReplaceAppYaml | py/src/gaedriver/gaedriver.py:483-502 | The file system becomes ReplacedFiles. A missing app.yaml is an IOError that changes nothing. |
| PyDevAppServer.DevAppServerThread.RestoreAppYaml | py/src/gaedriver/gaedriver.py:504-508 | The files and the error are what RestoredFiles specifies, step by step. |
| PyDevAppServer.DevAppServerThread.Run | py/src/gaedriver/gaedriver.py:518-523 | It spawns the `_get_argv` command line and records the pid, or ends on its ValueError without spawning. |
| PyDevAppServer.DevAppServerThread.Start | py/src/gaedriver/gaedriver.py:510-512 | It rewrites app.yaml first. A rewrite error reaches the caller; a thread error does not. |
| PyDevAppServer.DevAppServerThread.Stop | py/src/gaedriver/gaedriver.py:529-535 | It sends SIGKILL only when a nonzero pid is known, then restores app.yaml. |
| PyDevAppServer.NewDevAppServerThread | py/src/gaedriver/gaedriver.py:431-453 | ValueError exactly when app id, app directory, SDK directory or app hostname is unset. Otherwise a fresh thread with those fields. |
| PySetup.CheckOutput | py/src/gaedriver/gaedriver.py:612 | It passes exactly when the output exists and its lower case has no "error". No output is an AttributeError. |
| PySetup.CheckStateChange | py/src/gaedriver/gaedriver.py:616-618 | It passes when the output says "is already …" or has no "error" in any case. |
| PySetup.UpdateOkHasOutput | py/src/gaedriver/gaedriver.py:610-612 | A successful update has output, so `.lower()` never meets None. |
| PySetup.UpdateAppErrorNotLower | py/src/gaedriver/gaedriver.py:610 | The errors `update_app` raises are never the missing-output AttributeError. |
| PySetup.SetupRunErrors | py/src/gaedriver/gaedriver.py:607-619 | Production setup never fails on a missing output. An update error is passed on unchanged. Success implies a clean update output. |
| PySetup.SetupRunStartsBackend | py/src/gaedriver/gaedriver.py:613-618 | A successful backend setup ends with the backend `start`, after the update's processes. |
| PySetup.TeardownRunCalls | py/src/gaedriver/gaedriver.py:636-644 | A successful backend teardown runs `stop`, then `delete`, and nothing else. |
| PySetup.SetupApp | py/src/gaedriver/gaedriver.py:586-623 | Production: files, processes and result are as SetupRun specifies. Local: the required-attribute check, then the app.yaml rewrite. On success the result is a fresh thread for the config, with no options and clear_datastore set, and it has been started: when `_get_argv` succeeds, its command line is spawned and the pid recorded; otherwise nothing is spawned and the pid stays None. |
| PySetup.SetupProduction | py/src/gaedriver/gaedriver.py:607-619 | backends.yaml is written for a backend. The processes and result follow SetupRun. |
| PySetup.FinishSetup | py/src/gaedriver/gaedriver.py:610-619 | The checks after the update, and the backend start, as SetupAfter specifies. |
| PySetup.StartBackend | py/src/gaedriver/gaedriver.py:613-618 | One `start` on the backend, and the check of its output. |
| PySetup.TeardownApp | py/src/gaedriver/gaedriver.py:626-647 | Production: follows TeardownRun and restores backends.yaml on success. Local: stops the thread, and a None token raises AttributeError. |
| PySetup.TeardownBackend | py/src/gaedriver/gaedriver.py:636-645 | `stop`, then `delete`, each checked. backends.yaml is restored only when both pass. |
| JavaUtils.LocalHostnameIsLocal | java/src/main/java/com/google/appengine/contrib/gaedriver/Utils.java:45-47 | Every `localhost:<port>` names a dev_appserver. |
| JavaUtils.ClusterHostnames | java/src/main/java/com/google/appengine/contrib/gaedriver/Utils.java:45-47 | A hostname with a nine-letter prefix other than "localhost" names an appserver. |
| JavaUtils.ScanOrderIsRange | java/src/main/java/com/google/appengine/contrib/gaedriver/Utils.java:58-78 | The two passes list every port of 32768..60000 exactly once, whatever the start. |
| JavaUtils.ProbePorts | java/src/main/java/com/google/appengine/contrib/gaedriver/Utils.java:60-68 | It tries the ports from lo up in order. It returns the first free one, every port below it being taken, or -1 when no port of the interval is free. |
| JavaUtils.PickUnusedPort | java/src/main/java/com/google/appengine/contrib/gaedriver/Utils.java:57-81 | -1 exactly when no port of the range is free, and otherwise a free port of the range. The ports tried are a prefix of the scan order, all but the last taken; the last is the result, or the whole order was tried. |
| JavaUtils.PickedPortMeaning | java/src/main/java/com/google/appengine/contrib/gaedriver/Utils.java:55-81 | -1 exactly when no port of the range is free. Otherwise the result is a free port of the range, and no port is tried twice. |
| JavaConfig.Config.Blank | java/src/main/java/com/google/appengine/contrib/gaedriver/Config.java:41-80 | backendId is "" and backendInstances 0 by their initialisers. Partition and domain are null. |
| JavaConfig.Config.ParseAppId | java/src/main/java/com/google/appengine/contrib/gaedriver/Config.java:163-183 | Outcome and fields are ParsedAppId, including the out-of-bounds failures after partial writes. |
| JavaConfig.Config.Init | java/src/main/java/com/google/appengine/contrib/gaedriver/Config.java:103-156 | Outcome and fields are Initialized: parseAppId first, then the rest only if it succeeded. |
| JavaConfig.Config.CompleteInit | java/src/main/java/com/google/appengine/contrib/gaedriver/Config.java:123-155 | The writes after parseAppId give Completed. |
| JavaConfig.Config.SetClusterHostname | java/src/main/java/com/google/appengine/contrib/gaedriver/Config.java:126-134 | Only clusterHostname changes: to the given name, else to `localhost:` plus the picked port (8080 for -1). |
| JavaConfig.Config.SetAppHostname | java/src/main/java/com/google/appengine/contrib/gaedriver/Config.java:136-151 | Production: appHostname is `[backend.]display.cluster`. Local: it is the cluster, and the admin console is NO_AC_ON_SDK. Nothing else changes. |
| JavaConfig.Config.SetSdkDir | java/src/main/java/com/google/appengine/contrib/gaedriver/Config.java:373-375 | Only sdkDir changes. |
| JavaConfig.Config.SetAppDir | java/src/main/java/com/google/appengine/contrib/gaedriver/Config.java:387-389 | Only appDir changes. |
| JavaConfig.Config.SetPassword | java/src/main/java/com/google/appengine/contrib/gaedriver/Config.java:408-410 | Only password changes. |
| JavaConfig.Config.SetUsername | java/src/main/java/com/google/appengine/contrib/gaedriver/Config.java:415-417 | Only username changes. |
| JavaConfig.NewConfig | java/src/main/java/com/google/appengine/contrib/gaedriver/Config.java:209-227 | It fails exactly where `init` fails on a fresh object; otherwise a fresh Config in the state `init` leaves. |
| JavaConfig.NewShortConfig | java/src/main/java/com/google/appengine/contrib/gaedriver/Config.java:192-194 | The three-argument constructor never fails and leaves the state of `init("", "", 0, …)`. |
| JavaConfig.LoadFromProperties | java/src/main/java/com/google/appengine/contrib/gaedriver/Config.java:236-268 | A malformed backendInstances is an InvalidConfigException. Otherwise the result is the nine-argument constructor on the properties, with "" defaults. |
| JavaConfig.ParseAppIdParts | java/src/main/java/com/google/appengine/contrib/gaedriver/Config.java:171-182 | A well-formed id with a display id succeeds: partition, domain and display are its components. An absent separator leaves its field as it was, and nothing else changes. |
| JavaConfig.AppIdAgreesWithPython | java/src/main/java/com/google/appengine/contrib/gaedriver/Config.java:163-183 | On ids Python accepts whose display id is not empty, Java finds the same display id, and the same partition and domain whenever the id has them. For an absent one, Python sets "" while Java keeps the field's old value, null on a new object. |
| JavaConfig.ParseAppIdTrailingTilde | java/src/main/java/com/google/appengine/contrib/gaedriver/Config.java:173-177 | `p~` fails on `[1]` after writing the partition p. `~` fails on `[0]` and leaves the partition alone. |
| JavaConfig.ParseAppIdExtraPieces | java/src/main/java/com/google/appengine/contrib/gaedriver/Config.java:173-177 | `a~b~c` succeeds with partition a and display id b. |
| JavaConfig.ParseEmptyAppId | java/src/main/java/com/google/appengine/contrib/gaedriver/Config.java:164-170 | The empty id sets the id, display id, partition and domain to "". |
| JavaConfig.InitWithoutClusterHostname | java/src/main/java/com/google/appengine/contrib/gaedriver/Config.java:126-151 | Without a cluster hostname: `localhost:<picked or 8080>`, a dev_appserver, app host = cluster, no admin console. |
| JavaConfig.InitHostnames | java/src/main/java/com/google/appengine/contrib/gaedriver/Config.java:135-151 | Production: `[backend.]display.cluster` and the given admin console. Local: the cluster and NO_AC_ON_SDK. |
| JavaConfig.InitCopies | java/src/main/java/com/google/appengine/contrib/gaedriver/Config.java:122-155 | `init` fails exactly when parseAppId does, keeping the fields it did not write. Otherwise it copies the backend, directories and credentials. |
| JavaConfig.ShortConstructor | java/src/main/java/com/google/appengine/contrib/gaedriver/Config.java:192-194 | Every app id field becomes "", with no backend and the given cluster. |
| JavaConfig.InstancesValues | java/src/main/java/com/google/appengine/contrib/gaedriver/Config.java:239-250 | An empty value is 0, and a printed 32-bit integer reads back. Failure exactly on a non-empty non-integer, as InvalidConfigException. |
| JavaConfig.MissingProperties | java/src/main/java/com/google/appengine/contrib/gaedriver/Config.java:237-256 | Missing keys read as "", and a missing backendInstances as 0. |
| JavaDevAppServer.DevAppserverThread.Blank | java/src/main/java/com/google/appengine/contrib/gaedriver/DevAppserverThread.java:36-50 | After the superclass constructor: host is null, port 0, and config and options are kept. |
| JavaDevAppServer.DevAppserverThread.Init | java/src/main/java/com/google/appengine/contrib/gaedriver/DevAppserverThread.java:71-86 | Outcome, host and port are HostAndPort. The host is written even when the port is rejected. |
| JavaDevAppServer.NewDevAppserverThread | java/src/main/java/com/google/appengine/contrib/gaedriver/DevAppserverThread.java:49-64 | Both constructors fail exactly when `init` does. Otherwise a fresh thread with HostAndPort's host and port. |
| JavaDevAppServer.HostAndPortShape | java/src/main/java/com/google/appengine/contrib/gaedriver/DevAppserverThread.java:71-86 | No colon: the whole name and 8080. Otherwise the text before the first colon, and the integer after it, or InvalidConfigException naming that text. |
| JavaDevAppServer.HostAndPortRoundTrip | java/src/main/java/com/google/appengine/contrib/gaedriver/DevAppserverThread.java:71-86 | `host:port` reads back as host and port, for colon-free hosts and 32-bit ports. |
| JavaDevAppServer.LocalConfigPort | java/src/main/java/com/google/appengine/contrib/gaedriver/DevAppserverThread.java:71-86 | A config made without a cluster hostname is served on localhost, at the picked port or 8080. |
| JavaDevAppServer.BuildArgumentListShape | java/src/main/java/com/google/appengine/contrib/gaedriver/DevAppserverThread.java:89-108 | The launcher, `-ea`, `-cp`, the tools jar and both classes, then the SDK root, address and port flags. The options follow in order, and the app directory is last. |
| JavaAppcfg.AppcfgThread.constructor | java/src/main/java/com/google/appengine/contrib/gaedriver/AppcfgThread.java:52-66 | It keeps the config, the action and the options (none for the two-argument form). |
| JavaAppcfg.AppcfgThread.BuildArgumentList | java/src/main/java/com/google/appengine/contrib/gaedriver/AppcfgThread.java:69-87 | The appends build exactly AppcfgCommand for the config's current state. |
| JavaAppcfg.AppcfgCommandShape | java/src/main/java/com/google/appengine/contrib/gaedriver/AppcfgThread.java:69-87 | Nine fixed elements, the options, then the action and the app directory. The command is the same whatever the password is. |
| JavaAppcfg.UpdateIsNotRollback | java/src/main/java/com/google/appengine/contrib/gaedriver/AppcfgThread.java:123-134 | The update and rollback command lines differ. |
| JavaAppcfg.ConflictMessageMatches | java/src/main/java/com/google/appengine/contrib/gaedriver/AppcfgThread.java:120-121 | Any text holding the message for a digit-free user name matches the pattern. |
| JavaAppcfg.ConflictNeedsHeadAndTail | java/src/main/java/com/google/appengine/contrib/gaedriver/AppcfgThread.java:120-133 | A match contains the head and the tail, so it is longer than both (and the length test adds nothing). |
| JavaAppcfg.PassShape | java/src/main/java/com/google/appengine/contrib/gaedriver/AppcfgThread.java:123-148 | A pass runs the update, plus the rollback exactly on a reported conflict. Only a successful update ends normally. A retry after a rollback needs a clean verdict. |
| JavaAppcfg.Attempt | java/src/main/java/com/google/appengine/contrib/gaedriver/AppcfgThread.java:123-148 | One pass runs what Pass specifies. |
| JavaAppcfg.UpdateApp | java/src/main/java/com/google/appengine/contrib/gaedriver/AppcfgThread.java:118-154 | The outcome and the commands run are UpdateFrom with MAX_ROLLBACK_RETRIES attempts. |
| JavaAppcfg.UpdateFromAttempts | java/src/main/java/com/google/appengine/contrib/gaedriver/AppcfgThread.java:122-127 | Between one and `left` uploads, and at most two runs per attempt. |
| JavaAppcfg.UpdateFromPairs | java/src/main/java/com/google/appengine/contrib/gaedriver/AppcfgThread.java:122-141 | Only the two commands run, and each rollback comes right after an upload. |
| JavaAppcfg.UpdateFromStopsAtSuccess | java/src/main/java/com/google/appengine/contrib/gaedriver/AppcfgThread.java:124-127 | A successful upload is the last command run, and the outcome is normal. |
| JavaAppcfg.UpdateAppRuns | java/src/main/java/com/google/appengine/contrib/gaedriver/AppcfgThread.java:118-154 | For updateApp itself: 1 to 2 uploads, at most 4 runs, rollbacks paired with uploads, nothing after success. |
| JavaAppcfg.UpdateFromExhausted | java/src/main/java/com/google/appengine/contrib/gaedriver/AppcfgThread.java:128-133 | Uploads that all fail without a conflict use up every attempt, and updateApp returns normally. |
| JavaAppcfg.AsWrittenConflictThrows | java/src/main/java/com/google/appengine/contrib/gaedriver/AppcfgThread.java:142-146 | As written, any rollback that runs ends updateApp with an exception, and it is the last command. |
| JavaAppcfg.CleanRollbackVerdicts | java/src/main/java/com/google/appengine/contrib/gaedriver/AppcfgThread.java:142-143 | A clean, silent rollback fails as written but passes with the intended test. |
| JavaAppcfg.AsWrittenMessageDropsStderr | java/src/main/java/com/google/appengine/contrib/gaedriver/AppcfgThread.java:144-145 | As written, the message carries stdout twice and never stderr. |
| JavaAppcfg.RollbackVerdictMeaning | java/src/main/java/com/google/appengine/contrib/gaedriver/AppcfgThread.java:142-145 | Intended: a rollback failed exactly when its output mentions "error" in any case or it wrote to stderr. The message carries both outputs. |
| JavaAppcfg.CleanRollbackRetries | java/src/main/java/com/google/appengine/contrib/gaedriver/AppcfgThread.java:133-147 | With the intended test, a conflict followed by a clean rollback leads to the next attempt. |

## Left out

- Sleeps (`SDK_STARTUP_WAIT`, `APP_DEPLOY_WAIT`, `Thread.sleep`) are left out. They change no state the model observes.
- Thread scheduling is left out. The dev_appserver thread's `run` sets `self.pid` on another thread, so a `stop` that comes before it sends no SIGKILL; the model does not capture that order.
- PyDevAppServer.DevAppServerThread.Start: runs `run` synchronously, so the pid is set when Start returns.
- PyDevAppServer.ProcessTable.Kill: never fails. The OSError of `os.kill` for a process that is gone, after which `stop` skips the app.yaml restore, is not modelled.
- Real processes are not modelled. Python's `Popen`/`communicate` is the `Processes` oracle, and Java's process start, plus the exit status and outputs of appcfg, is the `run` oracle. The Java `ClientThreadBase` machinery (stream readers, `start`, `stop`, `destroy`) is not part of this model.
- Standard error of appcfg (`RunOutcome.stderr`): the thread merges standard error into standard output (ClientThreadBase.java:131), so in the program `stderr` is always empty and the stderr test of RollbackVerdict never fires. The oracle leaves `stderr` free.
- `AppcfgThread.start` is folded into the oracle. An exit status other than 0 is the ClientException "appcfg call failed: <stdout>". Its IOException and InterruptedException paths, and the password written to standard input, are not modelled.
- `pickUnusedPort`: `SecureRandom` is the parameter `offset`, and `ServerSocket` binding is the predicate `free`. `Config.init` receives the answer as `pickedPort`, because the `Utils` instance is not modelled.
- `load_config_from_file` (Python) and `loadFromFile` (Java) read files and are not modelled. `loadFromProperties` takes the properties as a map.
- Java getters are plain field reads, which the model makes directly. Java `Preconditions.checkNotNull` is not modelled, because Dafny strings cannot be null.
- Java null fields: the fields `init` always writes start as "" instead of null. Only `partition` and `domain`, which `parseAppId` may leave unwritten, are `Option`.
- JavaAppcfg.UpdateApp: it ignores its `options` argument, as the source does, where threads are built without options.
- JavaAppcfg.UpdateApp: the rollback's own `stop` calls, and the `MAX_ROLLBACK_RETRIES` static being mutable, are not modelled (the model uses the constant 2).
- PyAppcfg.ConflictReported: the short user name is matched literally. Regex metacharacters in a user name, which the source interpolates unescaped, are not interpreted.
- Text.Lower: only ASCII letters are lower-cased. Unicode case mapping is not modelled.
- Text.ParseJavaInt: it accepts an optional sign and ASCII digits. `Integer.valueOf` also accepts non-ASCII decimal digits.
- PyConfig.Attr: attribute names are a fixed datatype, so the AttributeError of `getattr` on an unknown name cannot arise.
- PyConfig.NewConfig: `basestring` is modelled by the `PyStr` case. Unicode strings and other Python types beyond None, str and int are not represented.
- Paths are POSIX: `os.path.join` and `File.separator` use "/", and `os.linesep` is "\n".
- The file system is a map from paths to contents. Directories, permissions, metadata and `shutil.copy2`'s timestamps are not represented.

## Findings

| source | as written | input that shows it | evidently intended | confidence | as-written member | corrected member |
|---|---|---|---|---|---|---|
| java/src/main/java/com/google/appengine/contrib/gaedriver/AppcfgThread.java:142-143 | `rollbackStderr.length() >= 0` always holds, so every rollback counts as failed and updateApp never retries after a conflict | the update reports a conflict; the rollback exits 0 with empty stdout and stderr | `rollbackStderr.length() > 0`: only a rollback that mentions an error or writes to stderr fails | not executed | JavaAppcfg.AsWrittenConflictThrows | JavaAppcfg.CleanRollbackRetries |
| java/src/main/java/com/google/appengine/contrib/gaedriver/AppcfgThread.java:144-145 | the failure message concatenates `rollbackStdout` twice | a rollback with stdout "x" and stderr "y" gives a message ending "xx" | the message carries `rollbackStdout + rollbackStderr` | not executed | JavaAppcfg.AsWrittenMessageDropsStderr | JavaAppcfg.RollbackVerdictMeaning |
