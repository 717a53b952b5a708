/**
 * The plugin manager of pkg/plugin/manager.go: it keeps the plugins that
 * registered with the CLI's server, finds the plugin for a command, decides
 * whether and what to install from a plugin's address, removes a plugin
 * from the configuration, and routes the messages a plugin streams to the
 * controllers and views the CLI attached.
 *
 * The configuration file, GitHub, downloads, processes and the gRPC stream
 * are inputs here: the installed plugins are a list, the approved-plugins
 * file is its text or the error of fetching it, a release is its list of
 * assets, and a stream is the list of messages it delivers before it fails.
 */
module PluginManager {
  import opened Wrappers
  import opened Text

  /** A plugin's registration (RegisterConfig): name, version, minimum CLI version and command names. */
  datatype PluginConfig = PluginConfig(name: string, version: string, minKaytuVersion: string, commands: seq<string>)

  // ---------------------------------------------------------------- lookups

  /** The index of the first plugin at or after `i` called `name`. */
  function FirstNamedFrom(plugins: seq<PluginConfig>, name: string, i: nat): (r: Option<nat>)
    requires i <= |plugins|
    ensures r.Some? ==> i <= r.value < |plugins| && plugins[r.value].name == name &&
                        forall j :: i <= j < r.value ==> plugins[j].name != name
    ensures r.None? ==> forall j :: i <= j < |plugins| ==> plugins[j].name != name
    decreases |plugins| - i
  {
    if i == |plugins| then None
    else if plugins[i].name == name then Some(i)
    else FirstNamedFrom(plugins, name, i + 1)
  }

  /** The first plugin called `name`, if any (lines 69-76). */
  function FirstNamed(plugins: seq<PluginConfig>, name: string): Option<PluginConfig> {
    match FirstNamedFrom(plugins, name, 0)
    case Some(i) => Some(plugins[i])
    case None => None
  }

  /** The first plugin offering command `cmd`, scanning from plugin `i`. */
  function FirstWithCommandFrom(plugins: seq<PluginConfig>, cmd: string, i: nat): (r: Option<nat>)
    requires i <= |plugins|
    ensures r.Some? ==> i <= r.value < |plugins| && cmd in plugins[r.value].commands &&
                        forall j :: i <= j < r.value ==> cmd !in plugins[j].commands
    ensures r.None? ==> forall j :: i <= j < |plugins| ==> cmd !in plugins[j].commands
    decreases |plugins| - i
  {
    if i == |plugins| then None
    else if cmd in plugins[i].commands then Some(i)
    else FirstWithCommandFrom(plugins, cmd, i + 1)
  }

  const PluginNotFound := "plugin not found"

  /** What starting a command's plugin does: the plugin to start and the server address it is given. */
  datatype Start = Start(plugin: PluginConfig, address: string)

  /** `StartPlugin` (lines 78-94): the first installed plugin offering the command, or "plugin not found". */
  function StartFor(installed: seq<PluginConfig>, cmd: string, port: int): Result<Start> {
    match FirstWithCommandFrom(installed, cmd, 0)
    case Some(i) => Ok(Start(installed[i], "localhost:" + IntToString(port)))
    case None => Err(PluginNotFound)
  }

  /** `StartPlugin` fails exactly when no installed plugin offers the command, and otherwise starts the first that does. */
  lemma StartForMeaning(installed: seq<PluginConfig>, cmd: string, port: int)
    ensures StartFor(installed, cmd, port).Err? <==> forall j :: 0 <= j < |installed| ==> cmd !in installed[j].commands
    ensures StartFor(installed, cmd, port).Err? ==> StartFor(installed, cmd, port).error == PluginNotFound
    ensures StartFor(installed, cmd, port).Ok? ==>
              exists i :: 0 <= i < |installed| && StartFor(installed, cmd, port).value.plugin == installed[i] &&
                          cmd in installed[i].commands && forall j :: 0 <= j < i ==> cmd !in installed[j].commands
  {
    var r := FirstWithCommandFrom(installed, cmd, 0);
    if r.Some? {
      assert installed[r.value] == StartFor(installed, cmd, port).value.plugin;
    }
  }

  /** Lines 78-94 over the installed plugins (reading the configuration is not modelled). */
  method StartPlugin(installed: seq<PluginConfig>, cmd: string, port: int) returns (r: Result<Start>)
    ensures r == StartFor(installed, cmd, port)
  {
    var i := 0;
    while i < |installed|
      invariant 0 <= i <= |installed|
      invariant FirstWithCommandFrom(installed, cmd, 0) == FirstWithCommandFrom(installed, cmd, i)
    {
      var cs := installed[i].commands;
      var k := 0;
      while k < |cs|
        invariant 0 <= k <= |cs| && forall l :: 0 <= l < k ==> cs[l] != cmd
      {
        if cmd == cs[k] {
          return Ok(Start(installed[i], "localhost:" + IntToString(port)));
        }
        k := k + 1;
      }
      i := i + 1;
    }
    r := Err(PluginNotFound);
  }

  // ---------------------------------------------------------------- install

  /** An address, normalised (lines 229-233): the plugin's name, the repository owner and the repository. */
  datatype Address = Address(name: string, owner: string, repository: string)

  /**
   * An address not starting with "github.com" names a plugin of the
   * kaytu-io organisation; the "github.com/" is dropped, and owner and
   * repository are split at the first "/".
   */
  function Normalize(addr: string): Address {
    var full := if HasPrefix(addr, "github.com") then addr else "github.com/kaytu-io/plugin-" + addr;
    var name := TrimPrefix(full, "github.com/");
    var parts := Cut(name, '/');
    Address(name, parts.0, parts.1)
  }

  /** A short address names kaytu-io's repository "plugin-<addr>". */
  lemma NormalizeShort(addr: string)
    requires !HasPrefix(addr, "github.com")
    ensures Normalize(addr) == Address("kaytu-io/plugin-" + addr, "kaytu-io", "plugin-" + addr)
  {
    assert "github.com/kaytu-io/plugin-" == "github.com/" + "kaytu-io/plugin-";
    Assoc("github.com/", "kaytu-io/plugin-", addr);
    var name := "kaytu-io/plugin-" + addr;
    TrimPrefixOf("github.com/", name);
    assert "kaytu-io/plugin-" == "kaytu-io" + ['/'] + "plugin-";
    Assoc("kaytu-io" + ['/'], "plugin-", addr);
    assert '/' !in "kaytu-io";
    CutAt(name, "kaytu-io", "plugin-" + addr);
  }

  lemma TrimPrefixOf(p: string, rest: string)
    ensures TrimPrefix(p + rest, p) == rest
  {
    assert (p + rest)[..|p|] == p;
  }

  /** A full GitHub address keeps owner and repository; the name is "owner/repository". */
  lemma NormalizeGithub(owner: string, repository: string)
    requires '/' !in owner
    ensures Normalize("github.com/" + owner + "/" + repository) == Address(owner + "/" + repository, owner, repository)
  {
    var addr := "github.com/" + owner + "/" + repository;
    assert addr == "github.com/" + (owner + "/" + repository);
    assert HasPrefix(addr, "github.com");
    assert owner + "/" + repository == owner + ['/'] + repository;
    CutAt(owner + "/" + repository, owner, repository);
  }

  /** Cutting at the first separator when the text before it has none. */
  lemma {:induction false} CutAt(s: string, before: string, after: string)
    requires s == before + ['/'] + after && '/' !in before
    ensures Cut(s, '/') == (before, after, true)
    decreases |before|
  {
    if before == [] {
      assert s[0] == '/' && s[1..] == after;
    } else {
      assert s[0] == before[0] && s[1..] == before[1..] + ['/'] + after;
      CutAt(s[1..], before[1..], after);
      assert before == [before[0]] + before[1..];
    }
  }

  /** The plugin approved without consulting the list (line 431). */
  const AlwaysApproved := "kaytu-io/plugin-aws"

  /**
   * `isPluginApproved` (lines 430-455): the AWS plugin always is; any
   * other plugin needs a line of the approved-plugins file equal to its
   * name. `list` is that file's text, or the error of fetching it.
   */
  function Approved(name: string, list: Result<string>): Result<bool> {
    if name == AlwaysApproved then Ok(true)
    else match list
      case Err(e) => Err(e)
      case Ok(content) => Ok(name in Split(content, '\n'))
  }

  /** A name holding a line break is never on the list: only the AWS plugin can be approved then. */
  lemma ApprovedNeedsOneLine(name: string, content: string)
    requires '\n' in name
    ensures Approved(name, Ok(content)) == Ok(false)
  {
    var lines := Split(content, '\n');
    SplitAvoids(content, '\n');
    forall i | 0 <= i < |lines| ensures lines[i] != name {
      assert '\n' !in lines[i];
    }
  }

  /** A listed name is approved, whatever else the file holds. */
  lemma ApprovedWhenListed(name: string, before: string, after: string)
    requires '\n' !in name
    ensures Approved(name, Ok(before + "\n" + name + "\n" + after)) == Ok(true)
  {
    var content := before + "\n" + name + "\n" + after;
    assert content == before + "\n" + (name + "\n" + after);
    SplitAfterBreaks(before, name + "\n" + after);
    SplitLineFirst(name, after);
    var parts := Split(content, '\n');
    assert parts[CountChar(before, '\n') + 1] == name;
  }

  /** A text starting with a line and a break splits into that line first. */
  lemma {:induction false} SplitLineFirst(line: string, after: string)
    requires '\n' !in line
    ensures |Split(line + "\n" + after, '\n')| >= 2 && Split(line + "\n" + after, '\n')[0] == line
    decreases |line|
  {
    var s := line + "\n" + after;
    if line != [] {
      assert s[1..] == line[1..] + "\n" + after;
      SplitLineFirst(line[1..], after);
      SplitFirst(s, '\n');
      assert line == [line[0]] + line[1..];
    } else {
      assert s == "\n" + after;
      assert s[1..] == after;
      SplitFirst(s, '\n');
    }
  }

  /**
   * The parts of `before + "\n" + rest` past the breaks of `before` are the
   * parts of `rest`.
   */
  lemma {:induction false} SplitAfterBreaks(before: string, rest: string)
    ensures CountChar(before, '\n') + 1 <= |Split(before + "\n" + rest, '\n')|
    ensures Split(before + "\n" + rest, '\n')[CountChar(before, '\n') + 1..] == Split(rest, '\n')
    decreases |before|
  {
    var s := before + "\n" + rest;
    if before == [] {
      assert s == "\n" + rest && s[1..] == rest;
      SplitFirst(s, '\n');
    } else {
      assert s[1..] == before[1..] + "\n" + rest;
      SplitAfterBreaks(before[1..], rest);
      SplitFirst(s, '\n');
      CountCharFirst(before, '\n');
    }
  }

  /** The parts of a non-empty text: those of its tail, the first one extended or a new empty one in front. */
  lemma SplitFirst(s: string, sep: char)
    requires s != []
    ensures var r := Split(s[1..], sep);
            Split(s, sep) == if s[0] == sep then [""] + r else [[s[0]] + r[0]] + r[1..]
  {
  }

  lemma CountCharFirst(s: string, c: char)
    requires s != []
    ensures CountChar(s, c) == (if s[0] == c then 1 else 0) + CountChar(s[1..], c)
  {
  }

  /** Lines 430-455: the AWS plugin, else a scan of the file's lines. */
  method IsPluginApproved(name: string, list: Result<string>) returns (r: Result<bool>)
    ensures r == Approved(name, list)
  {
    if name == AlwaysApproved {
      return Ok(true);
    }
    if list.Err? {
      return Err(list.error);
    }
    var lines := Split(list.value, '\n');
    for i := 0 to |lines|
      invariant name !in lines[..i]
    {
      if lines[i] == name {
        return Ok(true);
      }
      assert lines[..i + 1] == lines[..i] + [lines[i]];
    }
    assert lines[..|lines|] == lines;
    r := Ok(false);
  }

  const NotApproved := "plugin not approved. either use --unsafe or make a pull request on github.com/kaytu-io/kaytu to approve your plugin"

  /** A release asset: its id and name, each possibly missing. */
  datatype Asset = Asset(id: Option<int>, name: Option<string>)

  predicate IsVersionChar(c: char) {
    'a' <= c <= 'z' || '0' <= c <= '9' || c == '.'
  }

  /** The length of the run of `[a-z0-9.]` characters from `i`. */
  function VersionRun(s: string, i: nat): (n: nat)
    requires i <= |s|
    ensures i + n <= |s| && forall j :: i <= j < i + n ==> IsVersionChar(s[j])
    ensures i + n == |s| || !IsVersionChar(s[i + n])
    decreases |s| - i
  {
    if i < |s| && IsVersionChar(s[i]) then 1 + VersionRun(s, i + 1) else 0
  }

  /**
   * `plugin_([a-z0-9\.]+)_<os>_<arch>` matches at `i`. The version class
   * holds no `_`, so the version is the whole run before the next `_`.
   */
  predicate VersionAt(s: string, i: nat, platform: string) {
    i + 7 <= |s| && s[i..i + 7] == "plugin_" &&
    var n := VersionRun(s, i + 7);
    n > 0 && HasPrefix(s[i + 7 + n..], "_" + platform)
  }

  /** `patternVersionRegex.MatchString` (lines 29-31, unanchored), `platform` being "<os>_<arch>". */
  predicate MatchesPlatform(s: string, platform: string) {
    exists i | 0 <= i <= |s| :: VersionAt(s, i, platform)
  }

  /** The asset's version as line 288 reads it: the second `_`-separated field of its name. */
  function AssetVersion(name: string): string {
    var fields := Split(name, '_');
    if |fields| > 1 then fields[1] else ""
  }

  /** A matching name has the second field line 288 reads (the guard in `AssetVersion` never fires). */
  lemma MatchHasSecondField(name: string, platform: string)
    requires MatchesPlatform(name, platform)
    ensures |Split(name, '_')| > 1
  {
    var i :| 0 <= i <= |name| && VersionAt(name, i, platform);
    assert name[i + 6] == "plugin_"[6] == '_';
    assert '_' in name;
  }

  /** The version of a name starting with the pattern is the captured version. */
  lemma AssetVersionOfPattern(version: string, platform: string)
    requires version != [] && forall j :: 0 <= j < |version| ==> IsVersionChar(version[j])
    ensures AssetVersion("plugin_" + version + "_" + platform) == version
  {
    var s := "plugin_" + version + "_" + platform;
    assert s == "plugin" + ['_'] + (version + "_" + platform);
    SplitAt(s, "plugin", version + "_" + platform);
    var rest := version + "_" + platform;
    assert '_' !in version by {
      forall j | 0 <= j < |version| ensures version[j] != '_' { assert IsVersionChar(version[j]); }
    }
    assert rest == version + ['_'] + platform;
    SplitAt(rest, version, platform);
  }

  /** Splitting at a first `_` when the text before it has none. */
  lemma {:induction false} SplitAt(s: string, before: string, after: string)
    requires s == before + ['_'] + after && '_' !in before
    ensures |Split(s, '_')| >= 2 && Split(s, '_')[0] == before && Split(s, '_')[1..] == Split(after, '_')
    decreases |before|
  {
    SplitFirst(s, '_');
    if before == [] {
      assert s[1..] == after;
    } else {
      assert s[1..] == before[1..] + ['_'] + after;
      SplitAt(s[1..], before[1..], after);
      assert before == [before[0]] + before[1..];
    }
  }

  /** The first asset with an id and a name matching the platform, from `i` (the loop of lines 286-288). */
  function FirstAssetFrom(assets: seq<Asset>, platform: string, i: nat): (r: Option<nat>)
    requires i <= |assets|
    ensures r.Some? ==> i <= r.value < |assets| && assets[r.value].id.Some? && assets[r.value].name.Some? &&
                        MatchesPlatform(assets[r.value].name.value, platform)
    ensures r.Some? ==> forall j :: i <= j < r.value ==>
                          !(assets[j].id.Some? && assets[j].name.Some? && MatchesPlatform(assets[j].name.value, platform))
    decreases |assets| - i
  {
    if i == |assets| then None
    else
      var a := assets[i];
      if a.id.Some? && a.name.Some? && MatchesPlatform(a.name.value, platform) then Some(i)
      else FirstAssetFrom(assets, platform, i + 1)
  }

  /** The installed plugins keyed by name, a later entry replacing an earlier one (lines 253-256). */
  function ByName(installed: seq<PluginConfig>): map<string, PluginConfig>
    decreases |installed|
  {
    if installed == [] then map[]
    else ByName(installed[..|installed| - 1])[installed[|installed| - 1].name := installed[|installed| - 1]]
  }

  /** The file a plugin is stored in (lines 317 and 477): its name with every "/" made "_". */
  function FileName(name: string): (f: string)
    ensures |f| == |name| && '/' !in f
  {
    var f := ReplaceChar(name, '/', '_');
    assert forall i :: 0 <= i < |f| ==> f[i] != '/';
    f
  }

  /** What `Install` does, up to the download (lines 223-389). */
  datatype InstallPlan =
    | Refused(error: string)                    // the list could not be read, or the plugin is not approved
    | UpToDate                                  // the newest asset's version is installed: nothing is written
    | Fetch(name: string, version: string, file: string)  // download into `file`, start it and wait for it
    | NothingToFetch                            // no asset for this platform: the configuration is written back

  /**
   * `Install` for a release (not in debug mode) of the plugin called
   * `name`: approval, then the first asset for this platform against the
   * installed version. `platform` is "<os>_<arch>" (Windows file
   * extensions are not modelled).
   */
  function InstallFor(name: string, list: Result<string>, unsafe: bool, installed: seq<PluginConfig>,
                      assets: seq<Asset>, platform: string): InstallPlan {
    match Approved(name, list)
    case Err(e) => Refused(e)
    case Ok(approved) =>
      if !approved && !unsafe then Refused(NotApproved)
      else match FirstAssetFrom(assets, platform, 0)
        case None => NothingToFetch
        case Some(i) =>
          var version := AssetVersion(assets[i].name.value);
          var plugins := ByName(installed);
          if name in plugins && plugins[name].version == version then UpToDate
          else Fetch(name, version, FileName(name))
  }

  /** `Install` (lines 223-389) on an address as the user gives it. */
  function PlanInstall(addr: string, list: Result<string>, unsafe: bool, installed: seq<PluginConfig>,
                       assets: seq<Asset>, platform: string): InstallPlan {
    InstallFor(Normalize(addr).name, list, unsafe, installed, assets, platform)
  }

  /** Without `unsafe`, only an approved plugin gets past the check; with it, any plugin whose list was read. */
  lemma InstallNeedsApproval(name: string, list: Result<string>, unsafe: bool, installed: seq<PluginConfig>,
                             assets: seq<Asset>, platform: string)
    ensures var plan := InstallFor(name, list, unsafe, installed, assets, platform);
            (plan.Refused? <==> Approved(name, list).Err? || (Approved(name, list) == Ok(false) && !unsafe)) &&
            (plan.Refused? && Approved(name, list).Ok? ==> plan.error == NotApproved)
  {
  }

  /**
   * A plugin is fetched only when the version of the first asset for the
   * platform is not the installed one, into a file named after it without
   * any "/".
   */
  lemma InstallFetchesNewVersion(name: string, list: Result<string>, unsafe: bool, installed: seq<PluginConfig>,
                                 assets: seq<Asset>, platform: string)
    requires InstallFor(name, list, unsafe, installed, assets, platform).Fetch?
    ensures var plan := InstallFor(name, list, unsafe, installed, assets, platform);
            var plugins := ByName(installed);
            var first := FirstAssetFrom(assets, platform, 0);
            first.Some? && plan.name == name && plan.file == FileName(name) && '/' !in plan.file &&
            plan.version == AssetVersion(assets[first.value].name.value) &&
            !(name in plugins && plugins[name].version == plan.version)
  {
    var first := FirstAssetFrom(assets, platform, 0);
    assert Approved(name, list).Ok? && first.Some?;
    var version := AssetVersion(assets[first.value].name.value);
    var plugins := ByName(installed);
    assert !(name in plugins && plugins[name].version == version);
    assert InstallFor(name, list, unsafe, installed, assets, platform) == Fetch(name, version, FileName(name));
  }

  /**
   * Nothing is fetched when the first asset for the platform has the
   * installed version, or when there is no asset for the platform.
   */
  lemma InstallSkips(name: string, list: Result<string>, unsafe: bool, installed: seq<PluginConfig>,
                     assets: seq<Asset>, platform: string)
    ensures var plan := InstallFor(name, list, unsafe, installed, assets, platform);
            var first := FirstAssetFrom(assets, platform, 0);
            (plan.NothingToFetch? ==> first.None?) &&
            (plan.UpToDate? ==> first.Some? && name in ByName(installed) &&
                                ByName(installed)[name].version == AssetVersion(assets[first.value].name.value))
  {
  }

  /** The first matching asset, by the loop of lines 286-288. */
  method FindAsset(assets: seq<Asset>, platform: string) returns (r: Option<nat>)
    ensures r == FirstAssetFrom(assets, platform, 0)
  {
    var i := 0;
    while i < |assets|
      invariant 0 <= i <= |assets| && FirstAssetFrom(assets, platform, 0) == FirstAssetFrom(assets, platform, i)
    {
      var a := assets[i];
      if a.id.Some? && a.name.Some? && MatchesPlatform(a.name.value, platform) {
        return Some(i);
      }
      i := i + 1;
    }
    r := None;
  }

  /** Lines 253-256. */
  method IndexByName(installed: seq<PluginConfig>) returns (plugins: map<string, PluginConfig>)
    ensures plugins == ByName(installed)
  {
    plugins := map[];
    for n := 0 to |installed|
      invariant plugins == ByName(installed[..n])
    {
      assert installed[..n + 1][..n] == installed[..n];
      plugins := plugins[installed[n].name := installed[n]];
    }
    assert installed[..|installed|] == installed;
  }

  /** Lines 223-298 up to the download. */
  method Install(addr: string, list: Result<string>, unsafe: bool, installed: seq<PluginConfig>,
                 assets: seq<Asset>, platform: string) returns (plan: InstallPlan)
    ensures plan == PlanInstall(addr, list, unsafe, installed, assets, platform)
  {
    var full := addr;
    if !HasPrefix(full, "github.com") {
      full := "github.com/kaytu-io/plugin-" + full;
    }
    var name := TrimPrefix(full, "github.com/");
    var approved := IsPluginApproved(name, list);
    if approved.Err? {
      return Refused(approved.error);
    }
    if !approved.value && !unsafe {
      return Refused(NotApproved);
    }
    var plugins := IndexByName(installed);
    var found := FindAsset(assets, platform);
    if found.None? {
      return NothingToFetch;
    }
    var version := AssetVersion(assets[found.value].name.value);
    if name in plugins && plugins[name].version == version {
      return UpToDate;
    }
    plan := Fetch(name, version, FileName(name));
  }

  // ---------------------------------------------------------------- uninstall

  /** The plugins kept by `Uninstall`, keyed by name (lines 464-475). */
  function Kept(installed: seq<PluginConfig>, name: string): map<string, PluginConfig>
    decreases |installed|
  {
    if installed == [] then map[]
    else
      var p := installed[|installed| - 1];
      var rest := Kept(installed[..|installed| - 1], name);
      if p.name == name then rest else rest[p.name := p]
  }

  /** What `Uninstall` does: the file it removes and the plugins it writes back. */
  datatype Removal = Removal(file: string, kept: map<string, PluginConfig>)

  /** `Uninstall` (lines 457-494): "plugin not found" unless some installed plugin has the name. */
  function UninstallFrom(installed: seq<PluginConfig>, name: string): Result<Removal> {
    if exists i :: 0 <= i < |installed| && installed[i].name == name then Ok(Removal(FileName(name), Kept(installed, name)))
    else Err(PluginNotFound)
  }

  /** The configuration keeps every other installed plugin, under its name, and loses the removed one. */
  lemma {:induction false} KeptMeaning(installed: seq<PluginConfig>, name: string, other: string)
    ensures other in Kept(installed, name) <==> other != name && exists i :: 0 <= i < |installed| && installed[i].name == other
    ensures other in Kept(installed, name) ==> other in ByName(installed) && Kept(installed, name)[other] == ByName(installed)[other]
    decreases |installed|
  {
    if installed != [] {
      var n := |installed| - 1;
      KeptMeaning(installed[..n], name, other);
      assert forall i :: 0 <= i < n ==> installed[..n][i] == installed[i];
    }
  }

  /** Lines 457-494 (the file removal and the configuration write are not modelled). */
  method Uninstall(installed: seq<PluginConfig>, name: string) returns (r: Result<Removal>)
    ensures r == UninstallFrom(installed, name)
  {
    var plugins: map<string, PluginConfig> := map[];
    var found := false;
    for n := 0 to |installed|
      invariant plugins == Kept(installed[..n], name)
      invariant found <==> exists i :: 0 <= i < n && installed[i].name == name
    {
      assert installed[..n + 1][..n] == installed[..n];
      if name == installed[n].name {
        found := true;
        continue;
      }
      plugins := plugins[installed[n].name := installed[n]];
    }
    assert installed[..|installed|] == installed;
    if !found {
      return Err(PluginNotFound);
    }
    r := Ok(Removal(FileName(name), plugins));
  }

  // ---------------------------------------------------------------- register

  /** A message a plugin streams (ClientMessage's alternatives). */
  datatype Message =
    | Conf(config: PluginConfig)
    | Item
    | CustomItem
    | Job
    | Failure(text: string)
    | Ready
    | NonInteractiveExport
    | UpdateChart(overview: bool, devices: bool)
    | Summary

  /** Where a message is handed on. */
  datatype Target =
    | ViewItems | ViewCustomItems | ViewJobs | ViewErrors | ViewReady | ViewExport | ViewOverviewChart | ViewDevicesChart
    | Optimizations | CustomOptimizations | Jobs | JobErrors | OverviewPage | DetailsPage | CustomSummary

  /** Which of the manager's collaborators are set (not nil). */
  datatype Ui = Ui(nonInteractive: bool, jobs: bool, optimizations: bool, custom: bool, overviewPage: bool, detailsPage: bool)

  const NoUi := Ui(false, false, false, false, false, false)

  const DefaultNotSet := "default optimizations controller not set - is plugin running in custom ui mode?"
  const CustomNotSet := "custom optimizations controller not set - is plugin running in default ui mode?"

  /** What one message does. */
  datatype Step = Deliver(targets: seq<Target>) | Fail(error: string) | Crash

  /**
   * Lines 131-218 for one message other than `Conf` (which registers the
   * plugin and delivers nothing). In non-interactive mode every message goes
   * to the view; otherwise a message for a missing controller ends the
   * session with an error, a job without a jobs controller dereferences nil,
   * and an error without one is dropped.
   */
  function Dispatch(ui: Ui, msg: Message): Step {
    if ui.nonInteractive then
      match msg
      case Conf(_) => Deliver([])
      case Item => Deliver([ViewItems])
      case CustomItem => Deliver([ViewCustomItems])
      case Job => Deliver([ViewJobs])
      case Failure(_) => Deliver([ViewErrors])
      case Ready => Deliver([ViewReady])
      case NonInteractiveExport => Deliver([ViewExport])
      case UpdateChart(o, d) => Deliver((if o then [ViewOverviewChart] else []) + (if d then [ViewDevicesChart] else []))
      case Summary => Deliver([])
    else
      match msg
      case Conf(_) => Deliver([])
      case Job => if ui.jobs then Deliver([Jobs]) else Crash
      case Item => if ui.optimizations then Deliver([Optimizations]) else Fail(DefaultNotSet)
      case CustomItem => if ui.custom then Deliver([CustomOptimizations]) else Fail(CustomNotSet)
      case UpdateChart(o, d) =>
        if !ui.custom then Fail(CustomNotSet)
        else Deliver((if o && ui.overviewPage then [OverviewPage] else []) + (if d && ui.detailsPage then [DetailsPage] else []))
      case Failure(_) => if ui.jobs then Deliver([JobErrors]) else Deliver([])
      case Summary => if ui.custom then Deliver([CustomSummary]) else Fail(DefaultNotSet)
      case Ready => Deliver([])
      case NonInteractiveExport => Deliver([])
  }

  /** A session so far: plugins registered, deliveries made, and how it ended if it did. */
  datatype Session = Session(added: seq<PluginConfig>, delivered: seq<Target>, end: Option<Step>)

  function SessionStep(ui: Ui, s: Session, msg: Message): Session {
    if s.end.Some? then s
    else match Dispatch(ui, msg)
      case Deliver(ts) => Session(s.added + (if msg.Conf? then [msg.config] else []), s.delivered + ts, None)
      case other => s.(end := Some(other))
  }

  /** The messages of a stream, in order, until one ends the session. */
  function Run(ui: Ui, msgs: seq<Message>): Session
    decreases |msgs|
  {
    if msgs == [] then Session([], [], None) else SessionStep(ui, Run(ui, msgs[..|msgs| - 1]), msgs[|msgs| - 1])
  }

  /** The configurations among some messages. */
  function Confs(msgs: seq<Message>): seq<PluginConfig>
    decreases |msgs|
  {
    if msgs == [] then []
    else Confs(msgs[..|msgs| - 1]) + if msgs[|msgs| - 1].Conf? then [msgs[|msgs| - 1].config] else []
  }

  /**
   * In non-interactive mode no message ends the session: every `Conf`
   * registers its plugin, in order.
   */
  lemma {:induction false} NonInteractiveRuns(ui: Ui, msgs: seq<Message>)
    requires ui.nonInteractive
    ensures Run(ui, msgs).end.None? && Run(ui, msgs).added == Confs(msgs)
    decreases |msgs|
  {
    if msgs != [] {
      NonInteractiveRuns(ui, msgs[..|msgs| - 1]);
    }
  }

  /**
   * A session ends at the first message that fails or crashes, with that
   * message's step; up to it every `Conf` registered its plugin.
   */
  lemma {:induction false} RunEndsAtFirst(ui: Ui, msgs: seq<Message>)
    ensures var s := Run(ui, msgs);
            (s.end.None? <==> forall i :: 0 <= i < |msgs| ==> Dispatch(ui, msgs[i]).Deliver?) &&
            (s.end.None? ==> s.added == Confs(msgs)) &&
            (s.end.Some? ==> exists i :: 0 <= i < |msgs| && s.end.value == Dispatch(ui, msgs[i]) &&
                                          s.added == Confs(msgs[..i]) &&
                                          forall j :: 0 <= j < i ==> Dispatch(ui, msgs[j]).Deliver?)
    decreases |msgs|
  {
    if msgs != [] {
      var n := |msgs| - 1;
      var prev := msgs[..n];
      RunEndsAtFirst(ui, prev);
      assert forall j :: 0 <= j < n ==> prev[j] == msgs[j];
      var s0 := Run(ui, prev);
      if s0.end.Some? {
        var i :| 0 <= i < n && s0.end.value == Dispatch(ui, prev[i]) && s0.added == Confs(prev[..i]) &&
                 forall j :: 0 <= j < i ==> Dispatch(ui, prev[j]).Deliver?;
        assert prev[..i] == msgs[..i];
      } else if !Dispatch(ui, msgs[n]).Deliver? {
        assert msgs[..n] == prev;
      }
    }
  }

  /** How `Register` returns: with the error a message caused, by crashing, or with the stream's own error. */
  datatype Ending = Refusal(error: string) | NilDereference | StreamError(error: string)

  /** `Register` (lines 122-221) on a stream delivering `msgs` and then failing with `closeError`. */
  function Registered(ui: Ui, msgs: seq<Message>, closeError: string): (Session, Ending) {
    var s := Run(ui, msgs);
    match s.end
    case Some(Fail(e)) => (s, Refusal(e))
    case Some(_) => (s, NilDereference)
    case None =>
      // lines 166-171: outside non-interactive mode the stream error goes to the jobs controller too
      var last := if !ui.nonInteractive && ui.jobs then [JobErrors] else [];
      (s.(delivered := s.delivered + last), StreamError(closeError))
  }

  /** The manager (lines 38-56): its listening port, its started flag, the running plugins and the attached UI. */
  class Manager {
    var port: int
    var started: bool
    var plugins: seq<PluginConfig>
    var ui: Ui

    /** `New` (lines 58-63). */
    constructor ()
      ensures port == 0 && !started && plugins == [] && ui == NoUi
    {
      port := 0;
      started := false;
      plugins := [];
      ui := NoUi;
    }

    /** `GetPlugin` (lines 69-76): the first running plugin with that name. */
    method GetPlugin(name: string) returns (p: Option<PluginConfig>)
      ensures p == FirstNamed(plugins, name)
    {
      var i := 0;
      while i < |plugins|
        invariant 0 <= i <= |plugins| && FirstNamedFrom(plugins, name, 0) == FirstNamedFrom(plugins, name, i)
      {
        if plugins[i].name == name {
          return Some(plugins[i]);
        }
        i := i + 1;
      }
      p := None;
    }

    /** `SetDefaultUI` (lines 391-405): a jobs and an optimizations controller (the re-evaluate callback is not modelled). */
    method SetDefaultUi()
      modifies this
      ensures ui == old(ui).(jobs := true, optimizations := true) && plugins == old(plugins) && port == old(port)
    {
      ui := ui.(jobs := true, optimizations := true);
    }

    /** `SetCustomUI` (lines 407-424): jobs, custom optimizations and both pages. */
    method SetCustomUi()
      modifies this
      ensures ui == old(ui).(jobs := true, custom := true, overviewPage := true, detailsPage := true)
      ensures plugins == old(plugins) && port == old(port)
    {
      ui := ui.(jobs := true, custom := true, overviewPage := true, detailsPage := true);
    }

    /** `SetNonInteractiveView` (lines 426-428). */
    method SetNonInteractiveView()
      modifies this
      ensures ui == old(ui).(nonInteractive := true) && plugins == old(plugins) && port == old(port)
    {
      ui := ui.(nonInteractive := true);
    }

    /**
     * `Register` (lines 122-221): reads the stream until it fails or a
     * message ends the session; each `Conf` appends a running plugin.
     */
    method Register(msgs: seq<Message>, closeError: string) returns (delivered: seq<Target>, ending: Ending)
      modifies this
      ensures var (s, e) := Registered(old(ui), msgs, closeError);
              plugins == old(plugins) + s.added && delivered == s.delivered && ending == e
      ensures ui == old(ui) && port == old(port)
    {
      ghost var plugins0 := plugins;
      delivered := [];
      var n := 0;
      while n < |msgs|
        invariant 0 <= n <= |msgs| && ui == old(ui) && port == old(port)
        invariant |plugins0| <= |plugins| && plugins[..|plugins0|] == plugins0
        invariant Run(ui, msgs[..n]) == Session(plugins[|plugins0|..], delivered, None)
      {
        assert msgs[..n + 1][..n] == msgs[..n];
        var msg := msgs[n];
        var step := Dispatch(ui, msg);
        if !step.Deliver? {
          RunStays(ui, msgs, n + 1);
          assert plugins == plugins0 + plugins[|plugins0|..];
          if step.Fail? {
            return delivered, Refusal(step.error);
          }
          return delivered, NilDereference;
        }
        if msg.Conf? {
          plugins := plugins + [msg.config];
        }
        delivered := delivered + step.targets;
        n := n + 1;
      }
      assert msgs[..|msgs|] == msgs;
      assert plugins == plugins0 + plugins[|plugins0|..];
      if !ui.nonInteractive && ui.jobs {
        delivered := delivered + [JobErrors];
      }
      ending := StreamError(closeError);
    }
  }

  /** Once a message ends the session, later messages change nothing. */
  lemma {:induction false} RunStays(ui: Ui, msgs: seq<Message>, n: int)
    requires 0 <= n <= |msgs| && Run(ui, msgs[..n]).end.Some?
    ensures Run(ui, msgs) == Run(ui, msgs[..n])
    decreases |msgs| - n
  {
    if n < |msgs| {
      assert msgs[..n + 1][..n] == msgs[..n];
      RunStays(ui, msgs, n + 1);
    } else {
      assert msgs[..n] == msgs;
    }
  }
}
