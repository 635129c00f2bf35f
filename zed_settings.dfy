/**
 * The project's `.zed/settings.json`: created with defaults when missing, and otherwise given an
 * OmniSharp binary path when it has none. The file is a map from JSON paths to their scalar
 * values; only `lsp.omnisharp.binary.path` matters to the policy.
 */
module ZedSettings {
  import opened Wrappers
  import opened Search
  import opened Text
  import opened Paths
  import opened Platform

  /** A settings document, keyed by dotted JSON path (`"lsp.omnisharp.binary.path"`). */
  type Settings = map<string, string>

  const PathKey := "lsp.omnisharp.binary.path"

  /** The word `FindOmniSharpPath` looks for in the output of `dotnet tool list`. */
  const ToolName := "omnisharp"

  /** The scalar leaves of the default settings document. */
  function DefaultSettings(): Settings
  {
    map[
      "languages.C#.path" := "csharp",
      "languages.C#.language_servers.0" := ToolName,
      "languages.C#.formatter.language_server.name" := ToolName,
      PathKey := "",
      "lsp.omnisharp.binary.arguments.0" := "-lsp",
      "lsp.omnisharp.binary.arguments.1" := "--encoding",
      "lsp.omnisharp.binary.arguments.2" := "utf-8",
      "project_panel.file_types.C#.icon" := "file_type_csharp"
    ]
  }

  /** `settings["lsp"]["omnisharp"]["binary"]["path"].Value`: a missing node reads as empty. */
  function CurrentPath(doc: Settings): string
  {
    if PathKey in doc then doc[PathKey] else ""
  }

  // ---------------------------------------------------------------------------------------
  // FindOmniSharpPath
  // ---------------------------------------------------------------------------------------

  /** The fixed locations probed for OmniSharp, in order; the last is a bare file name. */
  function OmniSharpCandidates(h: Host): (r: seq<string>)
    ensures |r| == 5 && r[4] == "omnisharp.exe"
  {
    [ VisualStudioCodeScript(h),
      VisualStudioRoslyn(h, "Professional"),
      VisualStudioRoslyn(h, "Community"),
      VisualStudioRoslyn(h, "Enterprise"),
      "omnisharp.exe" ]
  }

  /** The OmniSharp launcher script of a per-user Visual Studio Code installation. */
  function VisualStudioCodeScript(h: Host): string
  {
    Combine(h.localAppData, ["Programs", "Microsoft VS Code", "bin", "omnisharp.cmd"], Separator(h))
  }

  /** The OmniSharp shipped with one edition of Visual Studio 2022. */
  function VisualStudioRoslyn(h: Host, edition: string): string
  {
    Combine(h.programFiles, ["Microsoft Visual Studio", "2022", edition, "MSBuild", "Current", "Bin", "Roslyn", "omnisharp.exe"], Separator(h))
  }

  /** Every candidate names the OmniSharp executable itself: the VS Code launcher script first,
      `omnisharp.exe` after it. */
  lemma OmniSharpCandidateNames(h: Host)
    ensures EndsWith(OmniSharpCandidates(h)[0], "omnisharp.cmd")
    ensures forall i :: 1 <= i < 5 ==> EndsWith(OmniSharpCandidates(h)[i], "omnisharp.exe")
  {
    VisualStudioCodeName(h);
    VisualStudioRoslynName(h, "Professional");
    VisualStudioRoslynName(h, "Community");
    VisualStudioRoslynName(h, "Enterprise");
  }

  lemma VisualStudioCodeName(h: Host)
    ensures EndsWith(VisualStudioCodeScript(h), "omnisharp.cmd")
  {
    CombineBounds(h.localAppData, ["Programs", "Microsoft VS Code", "bin", "omnisharp.cmd"], Separator(h));
  }

  lemma VisualStudioRoslynName(h: Host, edition: string)
    ensures EndsWith(VisualStudioRoslyn(h, edition), "omnisharp.exe")
  {
    CombineBounds(h.programFiles, ["Microsoft Visual Studio", "2022", edition, "MSBuild", "Current", "Bin", "Roslyn", "omnisharp.exe"], Separator(h));
  }

  /** A candidate that exists is never mistaken for null: when any candidate exists, the answer
      is non-empty, so the `IsNullOrEmpty` guards of the create and update paths keep it. */
  lemma FoundCandidateIsNotNull(h: Host, i: nat)
    requires i < 5 && h.fileExists(OmniSharpCandidates(h)[i])
    ensures OmniSharpPath(h) != ""
  {
    OmniSharpCandidateNames(h);
    var k := FirstIndex(OmniSharpCandidates(h), h.fileExists);
    assert k.Some? && k.value < 5;
    assert |OmniSharpCandidates(h)[k.value]| > 0;
  }

  /** Some line of the tool output mentions OmniSharp (after the whole output did). */
  predicate ToolListMentions(output: string)
  {
    Contains(output, ToolName) && exists line :: line in Split(output, '\n') && Contains(line, ToolName)
  }

  /** The fallback when no candidate exists: `"omnisharp"` if the tool list names it, else null
      (the empty string here); a throwing process step also gives null. */
  function ToolFallback(toolList: Result<string>): string
  {
    if toolList.Ok? && ToolListMentions(toolList.value) then ToolName else ""
  }

  /** What `FindOmniSharpPath` returns: the first candidate that exists, else the fallback. */
  function OmniSharpPath(h: Host): string
  {
    var candidates := OmniSharpCandidates(h);
    match FirstIndex(candidates, h.fileExists)
    case Some(i) => candidates[i]
    case None => ToolFallback(h.dotnetToolList)
  }

  /** Scanning the lines is redundant: the fallback answers `"omnisharp"` exactly when the
      output contains the word anywhere. */
  lemma ToolListMentionsIffContains(output: string)
    ensures ToolListMentions(output) <==> Contains(output, ToolName)
  {
    ContainsIffSomeLine(output, ToolName, '\n');
  }

  /** The earliest existing candidate wins, whatever exists after it. */
  lemma EarliestCandidateWins(h: Host, i: nat)
    requires i < 5 && h.fileExists(OmniSharpCandidates(h)[i])
    requires forall j :: 0 <= j < i ==> !h.fileExists(OmniSharpCandidates(h)[j])
    ensures OmniSharpPath(h) == OmniSharpCandidates(h)[i]
  {
    FirstIndexIs(OmniSharpCandidates(h), h.fileExists, i);
  }

  /** With no candidate present, the answer is `"omnisharp"` exactly when the tool list ran and
      mentions it, and null otherwise. */
  lemma FallbackWhenNothingExists(h: Host)
    requires forall j :: 0 <= j < 5 ==> !h.fileExists(OmniSharpCandidates(h)[j])
    ensures OmniSharpPath(h) == ToolName <==> h.dotnetToolList.Ok? && Contains(h.dotnetToolList.value, ToolName)
    ensures OmniSharpPath(h) != ToolName ==> OmniSharpPath(h) == ""
  {
    var candidates := OmniSharpCandidates(h);
    assert FirstIndex(candidates, h.fileExists).None?;
    if h.dotnetToolList.Ok? {
      ToolListMentionsIffContains(h.dotnetToolList.value);
    }
  }

  /** `FindOmniSharpPath`: the candidate loop with an early return, then the line scan of the
      tool output. */
  method FindOmniSharpPath(h: Host) returns (r: string)
    ensures r == OmniSharpPath(h)
  {
    var hit := FirstExisting(h.fileExists, OmniSharpCandidates(h));
    if hit.Some? {
      return hit.value;
    }
    r := ScanToolList(h.dotnetToolList);
  }

  /** The `dotnet tool list` step of `FindOmniSharpPath`: a line scan, run only when the whole
      output mentions OmniSharp; a throwing process step gives null. */
  method ScanToolList(toolList: Result<string>) returns (r: string)
    ensures r == ToolFallback(toolList)
  {
    match toolList
    case Exception =>
      return "";
    case Ok(output) =>
      if Contains(output, ToolName) {
        var lines := Split(output, '\n');
        var k := 0;
        while k < |lines|
          invariant 0 <= k <= |lines|
          invariant forall j :: 0 <= j < k ==> !Contains(lines[j], ToolName)
        {
          if Contains(lines[k], ToolName) {
            return ToolName;
          }
          k := k + 1;
        }
      }
      return "";
  }

  /** The `foreach` over the candidates of `FindOmniSharpPath`, which returns the first one
      that exists. */
  method FirstExisting(fileExists: string -> bool, candidates: seq<string>) returns (r: Option<string>)
    ensures r.None? <==> FirstIndex(candidates, fileExists).None?
    ensures r.Some? ==> r.value == candidates[FirstIndex(candidates, fileExists).value]
  {
    var i := 0;
    while i < |candidates|
      invariant 0 <= i <= |candidates|
      invariant forall j :: 0 <= j < i ==> !fileExists(candidates[j])
    {
      if fileExists(candidates[i]) {
        FirstIndexIs(candidates, fileExists, i);
        return Some(candidates[i]);
      }
      i := i + 1;
    }
    return None;
  }

  // ---------------------------------------------------------------------------------------
  // The settings file
  // ---------------------------------------------------------------------------------------

  /** `CreateDefaultSettings`: the defaults, with the found path filled in when there is one. */
  function CreatedSettings(found: string): Settings
  {
    if found != "" then DefaultSettings()[PathKey := found] else DefaultSettings()
  }

  /** `UpdateOmniSharpPath` once the document was read: the found path goes in only where the
      current one is empty. */
  function UpdatedSettings(doc: Settings, found: string): Settings
  {
    if CurrentPath(doc) == "" && found != "" then doc[PathKey := found] else doc
  }

  /** The two places the update can throw (and swallow): reading or parsing the file, and
      writing it back. */
  datatype UpdateFaults = UpdateFaults(readFails: bool, writeFails: bool)

  /** The file after `Sync`, given what `FindOmniSharpPath` answers: there is always one. */
  function SyncedFile(file: Option<Settings>, found: string, faults: UpdateFaults): (r: Option<Settings>)
    ensures r.Some?
    ensures file.None? ==> CurrentPath(r.value) == found
  {
    match file
    case None =>
      CreatedHasFoundPath(found);
      Some(CreatedSettings(found))
    case Some(doc) =>
      if faults.readFails || faults.writeFails then file else Some(UpdatedSettings(doc, found))
  }

  /** A created file has the found path, or the default empty one. */
  lemma CreatedHasFoundPath(found: string)
    ensures CurrentPath(CreatedSettings(found)) == found
    ensures CreatedSettings(found).Keys == DefaultSettings().Keys
    ensures forall k :: k in DefaultSettings() && k != PathKey ==> CreatedSettings(found)[k] == DefaultSettings()[k]
  {
    assert PathKey in DefaultSettings();
  }

  /** An existing non-empty path is never overwritten. */
  lemma SyncNeverOverwrites(file: Option<Settings>, found: string, faults: UpdateFaults)
    requires file.Some? && CurrentPath(file.value) != ""
    ensures SyncedFile(file, found, faults) == file
  {
  }

  /** Sync changes at most the OmniSharp path of an existing file, and fills it only when it was
      empty, with the found path. */
  lemma SyncOnlyTouchesPath(doc: Settings, found: string, faults: UpdateFaults)
    ensures var after := SyncedFile(Some(doc), found, faults).value;
      after.Keys <= doc.Keys + {PathKey} &&
      (forall k :: k in doc && k != PathKey ==> k in after && after[k] == doc[k]) &&
      (CurrentPath(after) != CurrentPath(doc) ==> CurrentPath(doc) == "" && CurrentPath(after) == found)
  {
  }

  /** After a sync that found a path and hit no fault, later syncs change nothing. */
  lemma SyncSettles(file: Option<Settings>, found: string, faults: UpdateFaults, found': string, faults': UpdateFaults)
    requires found != ""
    requires file.None? || (!faults.readFails && !faults.writeFails)
    ensures SyncedFile(SyncedFile(file, found, faults), found', faults') == SyncedFile(file, found, faults)
  {
    var after := SyncedFile(file, found, faults);
    if file.None? {
      CreatedHasFoundPath(found);
    } else {
      assert CurrentPath(after.value) != "";
    }
    SyncNeverOverwrites(after, found', faults');
  }

  /** The settings of one Unity project. `settingsPath` is `<project>/.zed/settings.json`, and
      `file` is what is stored at `settingsPath`: absent, or holding a document. The methods act
      on `file`, which stands for every read and write of that path. */
  class ZedSettings {
    const settingsPath: string
    var file: Option<Settings>

    constructor(dataPath: string, file: Option<Settings>)
      ensures settingsPath == Combine(Parent(dataPath, '/'), [".zed/settings.json"], '/')
      ensures this.file == file
    {
      settingsPath := Combine(Parent(dataPath, '/'), [".zed/settings.json"], '/');
      this.file := file;
    }

    /** `Sync`: create the file when it is missing, otherwise update it. */
    method Sync(h: Host, faults: UpdateFaults)
      modifies this
      ensures file == SyncedFile(old(file), OmniSharpPath(h), faults)
    {
      if file.None? {
        CreateDefaultSettings(h);
      } else {
        UpdateOmniSharpPath(h, faults);
      }
    }

    /** `CreateDefaultSettings`: writes the defaults, with the OmniSharp path when one is found. */
    method CreateDefaultSettings(h: Host)
      modifies this
      ensures file == Some(CreatedSettings(OmniSharpPath(h)))
    {
      var settings := DefaultSettings();
      var found := FindOmniSharpPath(h);
      if found != "" {
        settings := settings[PathKey := found];
      }
      file := Some(settings);
    }

    /** `UpdateOmniSharpPath`: fills an empty path; every failure is swallowed and leaves the
        file as it was. A missing file fails to read. */
    method UpdateOmniSharpPath(h: Host, faults: UpdateFaults)
      modifies this
      ensures old(file).None? || faults.readFails ==> file == old(file)
      ensures old(file).Some? && !faults.readFails ==>
        file == (if faults.writeFails then old(file) else Some(UpdatedSettings(old(file).value, OmniSharpPath(h))))
    {
      if file.None? || faults.readFails {
        return;
      }
      var settings := file.value;
      var currentPath := CurrentPath(settings);
      if currentPath == "" {
        var found := FindOmniSharpPath(h);
        if found != "" {
          settings := settings[PathKey := found];
          if faults.writeFails {
            return;
          }
          file := Some(settings);
        }
      }
    }
  }
}
