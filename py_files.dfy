/**
 * The files the Python driver rewrites around a test run: `app.yaml`, whose
 * `application:` line is pointed at the configured app id while a
 * dev_appserver runs, and `backends.yaml`, generated for a backend on a
 * production cluster.  The file system is a map from paths to contents;
 * directories, permissions and metadata are not represented.
 */
module PyFiles {
  import opened Wrappers
  import opened Text
  import opened PyConfig

  /** The local file system as the driver sees it. */
  class FileSystem {
    var files: map<string, string>

    constructor (initial: map<string, string>)
      ensures files == initial
    {
      files := initial;
    }

    /** `os.path.exists(path)`. */
    predicate Exists(path: string)
      reads this
    {
      path in files
    }

    /** `shutil.copy(src, dst)` / `shutil.copy2`: IOError when `src` is missing. */
    method Copy(src: string, dst: string) returns (r: Result<(), Error>)
      modifies this
      ensures src in old(files) ==> r.Ok? && files == old(files)[dst := old(files)[src]]
      ensures src !in old(files) ==> r == Err(IOError(src)) && files == old(files)
    {
      if src !in files {
        return Err(IOError(src));
      }
      files := files[dst := files[src]];
      return Ok(());
    }

    /** `os.remove(path)`: OSError when `path` is missing. */
    method Remove(path: string) returns (r: Result<(), Error>)
      modifies this
      ensures path in old(files) ==> r.Ok? && files == old(files) - {path}
      ensures path !in old(files) ==> r == Err(OSError(path)) && files == old(files)
    {
      if path !in files {
        return Err(OSError(path));
      }
      files := files - {path};
      return Ok(());
    }

    /** Unlink `path` if it is there, ignoring a missing file. */
    method Discard(path: string)
      modifies this
      ensures files == old(files) - {path}
    {
      files := files - {path};
    }

    /** `open(path, 'w').write(content)`. */
    method Write(path: string, content: string)
      modifies this
      ensures files == old(files)[path := content]
    {
      files := files[path := content];
    }
  }

  // ---------------------------------------------------------------------
  // Paths

  /** `os.path.join(a, b)` on a POSIX system. */
  function PathJoin(a: string, b: string): string {
    if StartsWith(b, "/") then b
    else if a == [] || EndsWithChar(a, '/') then a + b
    else a + "/" + b
  }

  /** Joining one directory with two different relative names gives two different paths. */
  lemma PathJoinInjective(dir: string, x: string, y: string)
    requires !StartsWith(x, "/") && !StartsWith(y, "/")
    requires PathJoin(dir, x) == PathJoin(dir, y)
    ensures x == y
  {
    var pre := if dir == [] || EndsWithChar(dir, '/') then dir else dir + "/";
    assert PathJoin(dir, x) == pre + x && PathJoin(dir, y) == pre + y;
    assert x == (pre + x)[|pre|..];
    assert y == (pre + y)[|pre|..];
  }

  lemma Relative(b: string)
    requires |b| > 0 && b[0] != '/'
    ensures !StartsWith(b, "/")
  {
  }

  /** `app.yaml` of the application. */
  function AppYamlPath(appDir: string): string { PathJoin(appDir, "app.yaml") }

  /** Where the original `app.yaml` is kept while a dev_appserver runs (APP_YAML_BACKUP). */
  function AppYamlBackupPath(appDir: string): string { PathJoin(appDir, "app.yaml.e2e") }

  /** The backup `fileinput` keeps during an in-place rewrite of `path`. */
  function InPlaceBackupPath(path: string): string { path + ".bak" }

  function BackendsYamlPath(appDir: string): string { PathJoin(appDir, "backends.yaml") }

  /** Where an existing `backends.yaml` is kept (BACKENDS_YAML_BACKUP). */
  function BackendsYamlBackupPath(appDir: string): string { PathJoin(appDir, "backends.yaml.e2e") }

  /** The files the driver touches in one application directory are pairwise distinct. */
  lemma DriverPathsDistinct(appDir: string)
    ensures AppYamlPath(appDir) != AppYamlBackupPath(appDir)
    ensures AppYamlBackupPath(appDir) != InPlaceBackupPath(AppYamlPath(appDir))
    ensures AppYamlPath(appDir) != InPlaceBackupPath(AppYamlPath(appDir))
    ensures BackendsYamlPath(appDir) != BackendsYamlBackupPath(appDir)
  {
    Relative("app.yaml");
    Relative("app.yaml.e2e");
    Relative("backends.yaml");
    Relative("backends.yaml.e2e");
    if AppYamlPath(appDir) == AppYamlBackupPath(appDir) {
      PathJoinInjective(appDir, "app.yaml", "app.yaml.e2e");
    }
    if BackendsYamlPath(appDir) == BackendsYamlBackupPath(appDir) {
      PathJoinInjective(appDir, "backends.yaml", "backends.yaml.e2e");
    }
    var y := AppYamlPath(appDir);
    var pre := if appDir == [] || EndsWithChar(appDir, '/') then appDir else appDir + "/";
    assert y == pre + "app.yaml";
    assert AppYamlBackupPath(appDir) == pre + "app.yaml.e2e";
    assert InPlaceBackupPath(y) == pre + "app.yaml.bak";
    var e2e := AppYamlBackupPath(appDir);
    var bak := InPlaceBackupPath(y);
    assert |e2e| == |bak| && e2e[|pre| + 9] == 'e' && bak[|pre| + 9] == 'b';
  }

  // ---------------------------------------------------------------------
  // app.yaml rewrite

  const APPLICATION_PREFIX: string := "application:"

  /** One line of the rewritten app.yaml, without its terminator. */
  function PatchLine(line: string, appId: string): string {
    if StartsWith(line, APPLICATION_PREFIX) then "application: " + appId else line
  }

  /** The lines of the rewritten app.yaml. */
  function PatchedLines(content: string, appId: string): (r: seq<string>)
    ensures |r| == |Lines(content)|
  {
    var ls := Lines(content);
    seq(|ls|, i requires 0 <= i < |ls| => PatchLine(ls[i], appId))
  }

  /** The content `_replace_app_yaml` prints back into app.yaml. */
  function PatchedContent(content: string, appId: string): string {
    Unlines(PatchedLines(content, appId))
  }

  lemma PatchedLinesFree(content: string, appId: string)
    requires '\n' !in appId
    ensures forall k | 0 <= k < |PatchedLines(content, appId)| :: '\n' !in PatchedLines(content, appId)[k]
  {
    LinesFree(content);
    var ls := Lines(content);
    forall k | 0 <= k < |ls| ensures '\n' !in PatchedLines(content, appId)[k] {
      if StartsWith(ls[k], APPLICATION_PREFIX) {
        assert PatchedLines(content, appId)[k] == "application: " + appId;
        assert forall ch :: ch in "application: " + appId ==> ch in "application: " || ch in appId;
      }
    }
  }

  /**
   * Reading the rewritten file line by line: the same number of lines as
   * before, every `application:` line now names the app id, every other
   * line unchanged.
   */
  lemma PatchedContentLines(content: string, appId: string)
    requires '\n' !in appId
    ensures var before, after := Lines(content), Lines(PatchedContent(content, appId));
            |after| == |before|
            && forall k | 0 <= k < |before| ::
                 after[k] == (if StartsWith(before[k], APPLICATION_PREFIX) then "application: " + appId else before[k])
  {
    PatchedLinesFree(content, appId);
    LinesUnlines(PatchedLines(content, appId));
  }

  /** Rewriting an already rewritten app.yaml changes nothing. */
  lemma PatchedContentIdempotent(content: string, appId: string)
    requires '\n' !in appId
    ensures PatchedContent(PatchedContent(content, appId), appId) == PatchedContent(content, appId)
  {
    PatchedContentLines(content, appId);
    var once := PatchedContent(content, appId);
    var a := PatchedLines(once, appId);
    var b := PatchedLines(content, appId);
    forall k | 0 <= k < |a| ensures a[k] == b[k] {
      var line := "application: " + appId;
      assert StartsWith(line, APPLICATION_PREFIX) by {
        assert line[..|APPLICATION_PREFIX|] == APPLICATION_PREFIX;
      }
    }
    assert a == b;
  }

  /**
   * A file without an `application:` line whose last line is terminated is
   * written back unchanged.
   */
  lemma PatchedContentUnchanged(content: string, appId: string)
    requires forall k | 0 <= k < |Lines(content)| :: !StartsWith(Lines(content)[k], APPLICATION_PREFIX)
    requires content == [] || content[|content| - 1] == '\n'
    ensures PatchedContent(content, appId) == content
  {
    assert PatchedLines(content, appId) == Lines(content);
    UnlinesLines(content);
  }

  /**
   * The file system after `_replace_app_yaml`: the original app.yaml is
   * copied to the backup, the in-place rewrite drops any `app.yaml.bak`,
   * and app.yaml holds the rewritten content.  A missing app.yaml is an
   * IOError before anything changes.
   */
  function ReplacedFiles(files: map<string, string>, yaml: string, backup: string, appId: string)
    : Result<map<string, string>, Error>
  {
    if yaml !in files then Err(IOError(yaml))
    else Ok(((files[backup := files[yaml]]) - {InPlaceBackupPath(yaml)})[yaml := PatchedContent(files[yaml], appId)])
  }

  /**
   * The file system after `_restore_app_yaml`: app.yaml removed, the backup
   * copied over it and then removed.  Each step can fail on a missing
   * file, leaving the effect of the steps before it.
   */
  function RestoredFiles(files: map<string, string>, yaml: string, backup: string)
    : (map<string, string>, Option<Error>)
  {
    if yaml !in files then (files, Some(OSError(yaml)))
    else if backup !in files then (files - {yaml}, Some(IOError(backup)))
    else ((files - {yaml})[yaml := files[backup]] - {backup}, None)
  }

  /**
   * Restoring after replacing gives back the original files, except that a
   * stale backup or `app.yaml.bak` is gone.
   */
  lemma RestoreAfterReplace(files: map<string, string>, appDir: string, appId: string)
    requires AppYamlPath(appDir) in files
    ensures var yaml, backup := AppYamlPath(appDir), AppYamlBackupPath(appDir);
            var replaced := ReplacedFiles(files, yaml, backup, appId);
            replaced.Ok?
            && RestoredFiles(replaced.value, yaml, backup)
               == (files - {backup, InPlaceBackupPath(yaml)}, None)
  {
    DriverPathsDistinct(appDir);
    var yaml, backup := AppYamlPath(appDir), AppYamlBackupPath(appDir);
    var bak := InPlaceBackupPath(yaml);
    var replaced := ReplacedFiles(files, yaml, backup, appId).value;
    assert yaml in replaced && backup in replaced && replaced[backup] == files[yaml];
    var restored := RestoredFiles(replaced, yaml, backup);
    assert restored.1 == None;
    var target := files - {backup, bak};
    assert restored.0 == (replaced - {yaml})[yaml := files[yaml]] - {backup};
    assert restored.0.Keys == target.Keys;
    assert forall p | p in target :: restored.0[p] == target[p];
    assert restored.0 == target;
  }

  /** While the dev_appserver runs, the backup holds the original app.yaml. */
  lemma ReplaceKeepsOriginal(files: map<string, string>, appDir: string, appId: string)
    requires AppYamlPath(appDir) in files
    ensures var yaml, backup := AppYamlPath(appDir), AppYamlBackupPath(appDir);
            var replaced := ReplacedFiles(files, yaml, backup, appId);
            replaced.Ok? && backup in replaced.value && yaml in replaced.value
            && replaced.value[backup] == files[yaml]
            && replaced.value[yaml] == PatchedContent(files[yaml], appId)
            && forall p | p in files && p !in {yaml, backup, InPlaceBackupPath(yaml)} ::
                 p in replaced.value && replaced.value[p] == files[p]
  {
    DriverPathsDistinct(appDir);
  }

  // ---------------------------------------------------------------------
  // backends.yaml

  const DEFAULT_BACKEND_INSTANCES: int := 2

  /** The lines `_create_backends_yaml` writes. */
  function BackendsYamlLines(backendId: string, backendInstances: int): seq<string> {
    var instances := if backendInstances != 0 then backendInstances else DEFAULT_BACKEND_INSTANCES;
    ["backends:", "- name: " + backendId, "  options: public, dynamic", "  instances: " + IntToString(instances)]
  }

  /** The content of the generated backends.yaml: the lines joined by the line separator. */
  function BackendsYaml(backendId: string, backendInstances: int): string {
    Join(BackendsYamlLines(backendId, backendInstances), '\n')
  }

  lemma NatToStringFree(n: nat)
    ensures '\n' !in NatToString(n)
  {
    var s := NatToString(n);
    forall i | 0 <= i < |s| ensures s[i] != '\n' {
      assert IsDigit(s[i]);
    }
  }

  /**
   * Reading the generated file back line by line yields the four lines:
   * the backend's name and its instance count, 2 when none was configured.
   */
  lemma BackendsYamlReadsBack(backendId: string, backendInstances: int)
    requires '\n' !in backendId
    ensures Split(BackendsYaml(backendId, backendInstances), '\n') == BackendsYamlLines(backendId, backendInstances)
    ensures BackendsYamlLines(backendId, 0)[3] == "  instances: 2"
  {
    var ls := BackendsYamlLines(backendId, backendInstances);
    var instances := if backendInstances != 0 then backendInstances else DEFAULT_BACKEND_INSTANCES;
    if instances < 0 {
      NatToStringFree(-instances);
    } else {
      NatToStringFree(instances);
    }
    forall k | 0 <= k < 4 ensures '\n' !in ls[k] {
      if k == 1 {
        assert forall ch :: ch in ls[1] ==> ch in "- name: " || ch in backendId;
      } else if k == 3 {
        assert forall ch :: ch in ls[3] ==> ch in "  instances: " || ch in IntToString(instances);
      }
    }
    SplitJoin(ls, '\n');
    assert IntToString(2) == "2";
  }

  /**
   * The file system after `_create_backends_yaml`: an existing backends.yaml
   * is copied to the backup, then backends.yaml is (over)written.
   */
  function CreatedBackendsFiles(files: map<string, string>, c: Config): map<string, string> {
    var yaml, backup := BackendsYamlPath(c.appDir), BackendsYamlBackupPath(c.appDir);
    var saved := if yaml in files then files[backup := files[yaml]] else files;
    saved[yaml := BackendsYaml(c.backendId, c.backendInstances)]
  }

  /**
   * The file system after `_restore_backends_yaml`: if there is a backup it
   * is copied over backends.yaml and removed, otherwise nothing changes.
   */
  function RestoredBackendsFiles(files: map<string, string>, c: Config): map<string, string> {
    var yaml, backup := BackendsYamlPath(c.appDir), BackendsYamlBackupPath(c.appDir);
    if backup in files then files[yaml := files[backup]] - {backup} else files
  }

  /**
   * Creating and then restoring: an application that had a backends.yaml
   * gets it back unchanged (the backup is gone); one that had none and no
   * stale backup keeps the generated file.
   */
  lemma RestoreAfterCreateBackends(files: map<string, string>, c: Config)
    ensures var yaml, backup := BackendsYamlPath(c.appDir), BackendsYamlBackupPath(c.appDir);
            var after := RestoredBackendsFiles(CreatedBackendsFiles(files, c), c);
            (yaml in files ==> after == files - {backup})
            && (yaml !in files && backup !in files ==>
                  after == files[yaml := BackendsYaml(c.backendId, c.backendInstances)])
  {
    DriverPathsDistinct(c.appDir);
    var yaml, backup := BackendsYamlPath(c.appDir), BackendsYamlBackupPath(c.appDir);
    var after := RestoredBackendsFiles(CreatedBackendsFiles(files, c), c);
    if yaml in files {
      assert after.Keys == (files - {backup}).Keys;
    }
  }

  /** `_create_backends_yaml`. */
  method CreateBackendsYaml(fs: FileSystem, c: Config)
    modifies fs
    ensures fs.files == CreatedBackendsFiles(old(fs.files), c)
  {
    var yaml, backup := BackendsYamlPath(c.appDir), BackendsYamlBackupPath(c.appDir);
    if fs.Exists(yaml) {
      var _ := fs.Copy(yaml, backup);
    }
    var instances := if c.backendInstances != 0 then c.backendInstances else DEFAULT_BACKEND_INSTANCES;
    var lines := [];
    lines := lines + ["backends:"];
    lines := lines + ["- name: " + c.backendId];
    lines := lines + ["  options: public, dynamic"];
    lines := lines + ["  instances: " + IntToString(instances)];
    assert lines == BackendsYamlLines(c.backendId, c.backendInstances);
    fs.Write(yaml, Join(lines, '\n'));
  }

  /** `_restore_backends_yaml`. */
  method RestoreBackendsYaml(fs: FileSystem, c: Config)
    modifies fs
    ensures fs.files == RestoredBackendsFiles(old(fs.files), c)
  {
    var yaml, backup := BackendsYamlPath(c.appDir), BackendsYamlBackupPath(c.appDir);
    if fs.Exists(backup) {
      var _ := fs.Copy(backup, yaml);
      var _ := fs.Remove(backup);
    }
  }
}
