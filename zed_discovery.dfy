/**
 * Finding the Zed installation: a fixed, platform-branched, ordered list of candidate
 * paths, the first one that exists wins, and its name carries a version when the
 * candidate's version strategy finds one.
 */
module ZedDiscovery {
  import opened Wrappers
  import opened Search
  import opened Paths
  import opened Platform

  const EditorName := "Zed"
  const MacContents := "/Applications/Zed.app/Contents"
  const MacCli := MacContents + "/MacOS/cli"
  const MacPlist := MacContents + "/Info.plist"
  const WindowsPathCommand := "zed.exe"

  /** The version strategies a candidate may carry; a candidate without one uses the fallback. */
  datatype VersionStrategy = FromPlist | FromWindowsExe

  datatype Candidate = Candidate(path: string, tryGetVersion: Option<VersionStrategy>)

  /** `CodeEditor.Installation`: a display name and an absolute path. */
  datatype Installation = Installation(name: string, path: string)

  /** The candidates in priority order, built as the source builds them for the running platform. */
  function Candidates(h: Host): (cs: seq<Candidate>)
  {
    if h.isWindows then WindowsCandidates(h) else UnixCandidates(h)
  }

  /** Candidates without a version strategy, in the order of `paths`. */
  function Unversioned(paths: seq<string>): (cs: seq<Candidate>)
    ensures |cs| == |paths|
    ensures forall i :: 0 <= i < |paths| ==> cs[i] == Candidate(paths[i], None)
  {
    seq(|paths|, i requires 0 <= i < |paths| => Candidate(paths[i], None))
  }

  /** Windows: Program Files, Program Files (x86), the two LocalAppData installs, AppData, Scoop,
      Chocolatey and winget, then the bare `zed.exe`, the only one with a version strategy. */
  function WindowsCandidates(h: Host): (cs: seq<Candidate>)
    ensures |cs| == 9 && cs[8] == Candidate(WindowsPathCommand, Some(FromWindowsExe))
    ensures forall i :: 0 <= i < 8 ==> cs[i].tryGetVersion.None?
  {
    var installs := Unversioned(WindowsInstallPaths(h));
    var onPath := Candidate(WindowsPathCommand, Some(FromWindowsExe));
    assert (installs + [onPath])[|installs|] == onPath;
    installs + [onPath]
  }

  function WindowsInstallPaths(h: Host): (ps: seq<string>)
    ensures |ps| == 8
  {
    var sep := '\\';
    [ "C:\\Program Files\\Zed\\zed.exe",
      "C:\\Program Files (x86)\\Zed\\zed.exe",
      Combine(h.localAppData, ["Programs", "Zed", "Zed.exe"], sep),
      Combine(h.localAppData, ["Zed", "zed.exe"], sep),
      Combine(h.appData, ["Zed", "zed.exe"], sep),
      Combine(h.homeDirectory, ["scoop", "apps", "zed", "current", "zed.exe"], sep),
      "C:\\ProgramData\\chocolatey\\lib\\zed\\tools\\zed.exe",
      Combine(h.homeDirectory, ["AppData", "Local", "Microsoft", "WinGet", "Packages", "zed.Zed", "zed.exe"], sep) ]
  }

  /** Elsewhere: the macOS bundle's `cli` first (the only one with a version strategy), then
      /usr/local/bin, Flatpak, the distribution package, NixOS system and per-user profiles,
      and ~/.local/bin. */
  function UnixCandidates(h: Host): (cs: seq<Candidate>)
    ensures |cs| == 8 && cs[0] == Candidate(MacCli, Some(FromPlist))
    ensures forall i :: 1 <= i < 8 ==> cs[i].tryGetVersion.None?
  {
    [Candidate(MacCli, Some(FromPlist))] + Unversioned(UnixInstallPaths(h))
  }

  function UnixInstallPaths(h: Host): (ps: seq<string>)
    ensures |ps| == 7
  {
    [ "/usr/local/bin/zed",
      "/var/lib/flatpak/app/dev.zed.Zed/current/active/files/bin/zed",
      "/usr/bin/zeditor",
      "/run/current-system/sw/bin/zeditor",
      "/etc/profiles/per-user/" + h.userName + "/bin/zed",
      "/etc/profiles/per-user/" + h.userName + "/bin/zeditor",
      Combine(h.homeDirectory, [".local/bin/zed"], '/') ]
  }

  /** The candidates' paths, in the same order. */
  function PathsOf(cs: seq<Candidate>): (ps: seq<string>)
    ensures |ps| == |cs| && forall i :: 0 <= i < |cs| ==> ps[i] == cs[i].path
  {
    seq(|cs|, i requires 0 <= i < |cs| => cs[i].path)
  }

  /** `path.Combine("../../").Combine("Info.plist")`: the bundle's metadata file beside `Contents/MacOS`. */
  function PlistPath(path: string, sep: char): string
  {
    Combine(Parent(Parent(path, sep), sep), ["Info.plist"], sep)
  }

  /** The plist strategy: no version when `Info.plist` is missing or has no short version key;
      a malformed document throws, since nothing in the strategy catches it. */
  function TryGetVersionFromPlist(h: Host, path: string): (r: Result<Option<string>>)
    ensures !h.fileExists(PlistPath(path, Separator(h))) ==> r == Ok(None)
    ensures r.Exception? <==> h.fileExists(PlistPath(path, Separator(h))) && h.readPlist(PlistPath(path, Separator(h))).Malformed?
    ensures h.fileExists(PlistPath(path, Separator(h))) && h.readPlist(PlistPath(path, Separator(h))).Parsed? ==>
      r == Ok(h.readPlist(PlistPath(path, Separator(h))).shortVersion)
  {
    var plistPath := PlistPath(path, Separator(h));
    if !h.fileExists(plistPath) then Ok(None)
    else match h.readPlist(plistPath)
      case Malformed => Exception
      case Parsed(v) => Ok(v)
  }

  /** The executable strategy: a version only on Windows, for an existing file whose
      `FileVersion` is readable and not empty; every failure is caught. */
  function TryGetVersionFromWindowsExe(h: Host, path: string): (r: Option<string>)
    ensures r.Some? <==> h.isWindows && h.fileExists(path) && h.fileVersionInfo(path).VersionResource?
                         && h.fileVersionInfo(path).fileVersion != ""
    ensures r.Some? ==> r.value == h.fileVersionInfo(path).fileVersion
  {
    if !h.isWindows || !h.fileExists(path) then None
    else match h.fileVersionInfo(path)
      case Unreadable => None
      case VersionResource(v) => if v == "" then None else Some(v)
  }

  /** Runs a candidate's strategy, or the fallback (which never finds a version) when it has none. */
  function TryGetVersion(h: Host, strategy: Option<VersionStrategy>, path: string): (r: Result<Option<string>>)
    ensures strategy.None? ==> r == Ok(None)
    ensures r.Exception? ==> strategy == Some(FromPlist)
    ensures strategy == Some(FromPlist) ==> r == TryGetVersionFromPlist(h, path)
    ensures strategy == Some(FromWindowsExe) ==> r == Ok(TryGetVersionFromWindowsExe(h, path))
  {
    match strategy
    case None => Ok(None)
    case Some(FromPlist) => TryGetVersionFromPlist(h, path)
    case Some(FromWindowsExe) => Ok(TryGetVersionFromWindowsExe(h, path))
  }

  /** `"Zed"`, or `"Zed [v]"` when the strategy found `v`. */
  function DisplayName(version: Option<string>): string
  {
    match version
    case None => EditorName
    case Some(v) => EditorName + " [" + v + "]"
  }

  /** The name starts with "Zed", has a bracket exactly when a version was found, and gives that
      version back. */
  lemma DisplayNameRoundTrip(version: Option<string>)
    ensures var name := DisplayName(version);
      |name| >= |EditorName| && name[..|EditorName|] == EditorName
    ensures version.Some? <==> '[' in DisplayName(version)
    ensures VersionOfName(DisplayName(version)) == version
  {
    var name := DisplayName(version);
    if version.Some? {
      assert name[3] == ' ' && name[4] == '[';
      assert name[..5] == "Zed [" && name[5..|name| - 1] == version.value;
    }
  }

  /** Reads the version back out of a display name. */
  function VersionOfName(name: string): Option<string>
  {
    if |name| >= 6 && name[..5] == "Zed [" && name[|name| - 1] == ']' then Some(name[5..|name| - 1])
    else None
  }

  /** The installation a found candidate yields, or the exception its strategy throws. */
  function Installed(h: Host, c: Candidate): (r: Result<Installation>)
    ensures r.Ok? ==> r.value.path == h.makeAbsolute(c.path)
    ensures c.tryGetVersion.None? ==> r == Ok(Installation(EditorName, h.makeAbsolute(c.path)))
    ensures r.Exception? <==> TryGetVersion(h, c.tryGetVersion, c.path).Exception?
    ensures r.Ok? ==> TryGetVersion(h, c.tryGetVersion, c.path) == Ok(VersionOfName(r.value.name))
    ensures r.Ok? ==> r.value.name == DisplayName(TryGetVersion(h, c.tryGetVersion, c.path).value)
  {
    match TryGetVersion(h, c.tryGetVersion, c.path)
    case Exception => Exception
    case Ok(version) =>
      DisplayNameRoundTrip(version);
      Ok(Installation(DisplayName(version), h.makeAbsolute(c.path)))
  }

  /** The installation of the first existing candidate of `cs`, if any. */
  function FirstInstallation(h: Host, cs: seq<Candidate>): (r: Result<seq<Installation>>)
    ensures r.Ok? ==> |r.value| <= 1
  {
    match FirstIndex(PathsOf(cs), h.fileExists)
    case None => Ok([])
    case Some(i) => Listed(Installed(h, cs[i]))
  }

  /** A single installation as a one-element result list; an exception stays an exception. */
  function Listed(r: Result<Installation>): Result<seq<Installation>>
  {
    match r
    case Exception => Exception
    case Ok(inst) => Ok([inst])
  }

  /** The whole discovery pass over the running platform's candidates. */
  function Discover(h: Host): (r: Result<seq<Installation>>)
    ensures r.Ok? ==> |r.value| <= 1
  {
    FirstInstallation(h, Candidates(h))
  }

  /** `GetInstallations`: builds the candidate list, then scans it. */
  method GetInstallations(h: Host) returns (r: Result<seq<Installation>>)
    ensures r == Discover(h)
  {
    var candidates := Candidates(h);
    r := ScanCandidates(h, candidates);
  }

  /** The scanning loop of `GetInstallations`: stops at the first candidate that exists. */
  method ScanCandidates(h: Host, candidates: seq<Candidate>) returns (r: Result<seq<Installation>>)
    ensures r == FirstInstallation(h, candidates)
  {
    var results: seq<Installation> := [];
    var i := 0;
    while i < |candidates|
      invariant 0 <= i <= |candidates|
      invariant results == []
      invariant forall j :: 0 <= j < i ==> !h.fileExists(candidates[j].path)
    {
      var candidate := candidates[i];
      if h.fileExists(candidate.path) {
        FirstIndexIs(PathsOf(candidates), h.fileExists, i);
        var version := TryGetVersion(h, candidate.tryGetVersion, candidate.path);
        if version.Exception? {
          return Exception;
        }
        var name := DisplayName(version.value);
        results := results + [Installation(name, h.makeAbsolute(candidate.path))];
        assert results == [Installation(name, h.makeAbsolute(candidate.path))];
        break;
      }
      i := i + 1;
    }
    if i == |candidates| {
      assert forall j :: 0 <= j < |candidates| ==> !h.fileExists(PathsOf(candidates)[j]);
    }
    return Ok(results);
  }

  /** `TryGetInstallationForPath`: the discovered installation whose path equals `editorPath`. */
  method TryGetInstallationForPath(h: Host, editorPath: string) returns (r: Result<Option<Installation>>)
    ensures r.Exception? <==> Discover(h).Exception?
    ensures r.Ok? && r.value.Some? ==> Discover(h) == Ok([r.value.value]) && r.value.value.path == editorPath
    ensures r.Ok? && r.value.None? ==> forall inst :: inst in Discover(h).value ==> inst.path != editorPath
  {
    var installed := GetInstallations(h);
    if installed.Exception? {
      return Exception;
    }
    var found := FindByPath(installed.value, editorPath);
    return Ok(found);
  }

  /** The `foreach` of `TryGetInstallationForPath`: the first installation whose path is exactly
      `editorPath`. */
  method FindByPath(all: seq<Installation>, editorPath: string) returns (r: Option<Installation>)
    ensures r.Some? ==> r.value.path == editorPath
    ensures r.Some? ==> exists k :: 0 <= k < |all| && all[k] == r.value && forall j :: 0 <= j < k ==> all[j].path != editorPath
    ensures r.None? ==> forall inst :: inst in all ==> inst.path != editorPath
  {
    var i := 0;
    while i < |all|
      invariant 0 <= i <= |all|
      invariant forall j :: 0 <= j < i ==> all[j].path != editorPath
    {
      if all[i].path == editorPath {
        return Some(all[i]);
      }
      i := i + 1;
    }
    return None;
  }

  //
  // Properties of the discovery pass
  //

  /** The earliest existing candidate is the one reported, whatever exists after it. */
  lemma EarliestExistingWins(h: Host, i: nat)
    requires i < |Candidates(h)| && h.fileExists(Candidates(h)[i].path)
    requires forall j :: 0 <= j < i ==> !h.fileExists(Candidates(h)[j].path)
    ensures Discover(h) == Listed(Installed(h, Candidates(h)[i]))
  {
    FirstIndexIs(PathsOf(Candidates(h)), h.fileExists, i);
  }

  /** A later candidate is never chosen over an existing earlier one. */
  lemma NeverPastAnExistingCandidate(h: Host, i: nat)
    requires i < |Candidates(h)| && h.fileExists(Candidates(h)[i].path)
    ensures exists k :: 0 <= k <= i && Discover(h) == Listed(Installed(h, Candidates(h)[k]))
  {
    var cs := Candidates(h);
    var k := FirstIndex(PathsOf(cs), h.fileExists);
    assert PathsOf(cs)[i] == cs[i].path;
    assert k.Some? && k.value <= i;
    assert Discover(h) == Listed(Installed(h, cs[k.value]));
  }

  /** Nothing is reported exactly when no candidate exists; that is not an error. */
  lemma NothingInstalled(h: Host)
    ensures Discover(h) == Ok([]) <==> forall j :: 0 <= j < |Candidates(h)| ==> !h.fileExists(Candidates(h)[j].path)
  {
    var cs := Candidates(h);
    var k := FirstIndex(PathsOf(cs), h.fileExists);
    if k.Some? {
      assert PathsOf(cs)[k.value] == cs[k.value].path;
      assert Discover(h) == Listed(Installed(h, cs[k.value]));
    } else {
      assert forall j :: 0 <= j < |cs| ==> PathsOf(cs)[j] == cs[j].path;
    }
  }

  /** The bundle metadata of the macOS candidate is the bundle's `Contents/Info.plist`. */
  lemma MacPlistPath()
    ensures PlistPath(MacCli, '/') == MacPlist
  {
    var macOS := MacContents + "/MacOS";
    assert MacCli == macOS + ['/'] + "cli";
    ParentOf(macOS, '/', "cli");
    assert macOS == MacContents + ['/'] + "MacOS";
    ParentOf(MacContents, '/', "MacOS");
    assert MacContents[|MacContents| - 1] == 's';
    assert MacPlist == MacContents + ['/'] + "Info.plist";
  }

  /** Discovery throws exactly on macOS-style hosts where the app's `cli` and its `Info.plist`
      exist and the plist cannot be read as XML; every other failure degrades to a plain name. */
  lemma DiscoveryThrowsIffMalformedPlist(h: Host)
    ensures Discover(h).Exception? <==>
      !h.isWindows && h.fileExists(MacCli) && h.fileExists(MacPlist) && h.readPlist(MacPlist).Malformed?
  {
    var cs := Candidates(h);
    var k := FirstIndex(PathsOf(cs), h.fileExists);
    MacPlistPath();
    if Discover(h).Exception? {
      assert k.Some? && Installed(h, cs[k.value]).Exception?;
      assert cs[k.value].tryGetVersion == Some(FromPlist);
      assert !h.isWindows && k.value == 0;
      assert PathsOf(cs)[0] == MacCli;
    }
    if !h.isWindows && h.fileExists(MacCli) {
      assert cs[0] == Candidate(MacCli, Some(FromPlist));
      EarliestExistingWins(h, 0);
    }
  }

  /** On a macOS host whose bundle reports short version 0.190.0, the editor is "Zed [0.190.0]". */
  lemma MacBundleScenario(h: Host)
    requires !h.isWindows && h.fileExists(MacCli)
    requires h.fileExists(MacPlist) && h.readPlist(MacPlist) == Parsed(Some("0.190.0"))
    ensures Discover(h) == Ok([Installation("Zed [0.190.0]", h.makeAbsolute(MacCli))])
  {
    EarliestExistingWins(h, 0);
    MacBundleVersion(h, "0.190.0");
    assert Candidates(h)[0] == Candidate(MacCli, Some(FromPlist));
    SampleVersionName();
  }

  lemma SampleVersionName()
    ensures DisplayName(Some("0.190.0")) == "Zed [0.190.0]"
  {
  }

  /** The macOS candidate's installation carries the bundle's short version. */
  lemma MacBundleVersion(h: Host, v: string)
    requires !h.isWindows && h.fileExists(MacPlist) && h.readPlist(MacPlist) == Parsed(Some(v))
    ensures Installed(h, Candidate(MacCli, Some(FromPlist))) == Ok(Installation(DisplayName(Some(v)), h.makeAbsolute(MacCli)))
  {
    MacPlistPath();
  }

  lemma VersionedName(v: string)
    ensures DisplayName(Some(v)) == "Zed [" + v + "]"
  {
  }

  /** When only ~/.local/bin/zed exists, the editor is plain "Zed": that candidate has no strategy. */
  lemma LocalBinScenario(h: Host)
    requires !h.isWindows
    requires forall j :: 0 <= j < 7 ==> !h.fileExists(Candidates(h)[j].path)
    requires h.fileExists(Combine(h.homeDirectory, [".local/bin/zed"], '/'))
    ensures Discover(h) == Ok([Installation(EditorName, h.makeAbsolute(Combine(h.homeDirectory, [".local/bin/zed"], '/')))])
  {
    assert Candidates(h)[7] == Candidate(Combine(h.homeDirectory, [".local/bin/zed"], '/'), None);
    EarliestExistingWins(h, 7);
  }

  /** When only the bare `zed.exe` exists on Windows, it still carries the executable strategy, so a
      non-empty file version shows in the name. */
  lemma WindowsPathScenario(h: Host, v: string)
    requires h.isWindows
    requires forall j :: 0 <= j < 8 ==> !h.fileExists(Candidates(h)[j].path)
    requires h.fileExists(WindowsPathCommand) && h.fileVersionInfo(WindowsPathCommand) == VersionResource(v) && v != ""
    ensures Discover(h) == Ok([Installation("Zed [" + v + "]", h.makeAbsolute(WindowsPathCommand))])
  {
    assert Candidates(h)[8] == Candidate(WindowsPathCommand, Some(FromWindowsExe));
    EarliestExistingWins(h, 8);
    WindowsExeVersion(h, v);
  }

  /** The bare `zed.exe` candidate's installation carries its non-empty file version. */
  lemma WindowsExeVersion(h: Host, v: string)
    requires h.isWindows
    requires h.fileExists(WindowsPathCommand) && h.fileVersionInfo(WindowsPathCommand) == VersionResource(v) && v != ""
    ensures Installed(h, Candidate(WindowsPathCommand, Some(FromWindowsExe)))
         == Ok(Installation("Zed [" + v + "]", h.makeAbsolute(WindowsPathCommand)))
  {
    VersionedName(v);
  }
}
