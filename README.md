# Unity–Zed bridge: discovery, launch arguments and settings sync

This project models the three pieces of sequential logic in the Unity package that connects
the Unity editor to the Zed code editor, and proves properties of them in Dafny:

- **Installation discovery** (`Editor/ZedDiscovery.cs`). A fixed, platform-branched, ordered
  list of candidate executables is built. Each candidate may carry a version strategy (the
  macOS bundle's `Info.plist`, or the Windows executable's version resource). The first
  candidate that exists is reported as `Zed` or `Zed [version]`, and the scan stops there.
  A reverse lookup confirms that a stored editor path is the discovered one.
- **Launch arguments** (`Editor/ZedProcess.cs`). `OpenProject` builds the argument string: the
  quoted project path, then optionally `-a`, the quoted file and `:line[:column]`. It returns
  the launcher's verdict, or false when the launcher throws.
- **Settings synchronisation** (`Editor/ZedSettings.cs`). `Sync` creates
  `<project>/.zed/settings.json` with defaults when it is missing. Otherwise it fills
  `lsp.omnisharp.binary.path` when that is empty. The path comes from `FindOmniSharpPath`:
  the first OmniSharp executable that exists among fixed locations, or else `"omnisharp"`
  when `dotnet tool list` mentions it.

Module layout:

- `Wrappers`: `Option`, and `Result` (a value, or an exception).
- `Search`: the first index satisfying a predicate.
- `Text`: substring search, splitting on a character, decimal rendering and parsing, quoting.
- `Paths`: `Combine` and `Parent`, for the path strings the package builds.
- `Platform`: `Host`, one snapshot of everything read from the environment. This covers the
  platform flag, the special folders, the home directory, the user name and
  `Application.dataPath`. It also holds the filesystem and library calls as oracles, and the
  captured output of `dotnet tool list`.
- `ZedDiscovery`, `ZedProcess`, `ZedSettings`: the three source files.

Each loop in the source is a method proved against a specification function. The discovery
loop and the reverse lookup are proved against `Discover`. The string builder is proved
against `Render(RequestFor(..))`. The OmniSharp search is proved against `OmniSharpPath`.
The settings methods are proved against `CreatedSettings`, `UpdatedSettings` and `SyncedFile`.
Lemmas then state the promised properties of those functions: first match wins, at most one
result, when an exception can occur, the argument round trip, never overwriting a path, and
that `Sync` settles.

Where the code departs from what the component is meant to do, the model follows the code:

- Version strategies are meant never to throw. `TryGetVersionFromPlist` has no `try`,
  so an `Info.plist` that exists but is not well-formed XML throws out of `GetInstallations`
  and out of `TryGetInstallationForPath` (`ZedDiscovery.DiscoveryThrowsIffMalformedPlist`).
- When only the lowest-priority candidate exists, the name is meant to carry no version. On
  Windows that candidate is the bare `zed.exe`, and it carries the executable-version strategy,
  so it can (`ZedDiscovery.WindowsPathScenario`). `zed.exe` is not searched for on the PATH:
  like every other candidate it is probed with `FileExists`, which resolves a relative name
  against the working directory, and the model's `fileExists` oracle receives it as written.
- A candidate whose environment-derived segment is unavailable is meant to be skipped.
  The code has no such skip: an empty special folder yields a shorter, relative path, which
  is probed like any other.

## Model

| member | source | states |
|---|---|---|
| Text.Split | Editor/ZedSettings.cs:113 | splitting the tool output on newlines yields at least one line, no line holds a newline, and joining the lines back gives the output |
| Text.Contains | Editor/ZedSettings.cs:110 | definition of `string.Contains`: the word occurs at some position; properties in `Text.ContainsIffSomeLine` |
| Text.ContainsIffSomeLine | Editor/ZedSettings.cs:110-121 | a word without the separator occurs in the text exactly when it occurs in one of its split lines |
| Text.Quote | Editor/ZedProcess.cs:26 | definition of wrapping a path in double quotes; properties in `ZedProcess.RenderRoundTrip` |
| Text.NatToString | Editor/ZedProcess.cs:37 | the decimal rendering of `StringBuilder.Append(int)` for a non-negative value is non-empty and all digits, a single digit exactly below ten, and starts with `0` only for zero, so it has no leading zero; `Text.ParseNatToString` reads it back |
| Text.ParseNatToString | Editor/ZedProcess.cs:37 | parsing the decimal rendering of a number gives the number back |
| Paths.Parent | Editor/ZedProcess.cs:18 | the parent is a prefix of the path, and is empty for a path without a separator |
| Paths.ParentOf | Editor/ZedProcess.cs:18 | the parent of `q/name` is `q` when `name` has no separator |
| Paths.CombineBounds | Editor/ZedDiscovery.cs:30-45 | a combined path starts with its base and ends with its last segment |
| Paths.Combine | Editor/ZedDiscovery.cs:30-45 | definition of `NPath.Combine` and `Path.Combine` over plain strings; properties in `Paths.CombineBounds` |
| ZedDiscovery.WindowsInstallPaths | Editor/ZedDiscovery.cs:24-45 | the Windows branch probes eight fixed install locations before the bare command |
| ZedDiscovery.UnixInstallPaths | Editor/ZedDiscovery.cs:54-72 | the other branch probes seven fixed locations after the macOS app |
| ZedDiscovery.WindowsCandidates | Editor/ZedDiscovery.cs:22-49 | there are nine Windows candidates; only the last one, bare `zed.exe`, carries a strategy, the executable version |
| ZedDiscovery.UnixCandidates | Editor/ZedDiscovery.cs:50-73 | there are eight candidates otherwise; only the first one, the macOS app's `cli`, carries a strategy, the plist |
| ZedDiscovery.Candidates | Editor/ZedDiscovery.cs:22 | definition: the Windows list on Windows, the other list elsewhere; properties in `ZedDiscovery.WindowsCandidates` and `ZedDiscovery.UnixCandidates` |
| ZedDiscovery.TryGetVersionFromPlist | Editor/ZedDiscovery.cs:126-141 | a missing `Info.plist` gives no version; an exception occurs exactly when the plist exists but is malformed; an existing, well-formed plist yields exactly its short version string, or no version when the key is absent |
| ZedDiscovery.TryGetVersionFromWindowsExe | Editor/ZedDiscovery.cs:143-166 | a version exists exactly on Windows, for an existing file with a readable, non-empty file version, and it is that file version |
| ZedDiscovery.TryGetVersion | Editor/ZedDiscovery.cs:78-84 | the candidate's own strategy is what runs: the plist strategy or the executable strategy, whose contracts give the result; a candidate without a strategy gets the fallback's "no version" (lines 120-124); only the plist strategy can throw |
| ZedDiscovery.DisplayName | Editor/ZedDiscovery.cs:82-85 | definition of the display name; properties in `ZedDiscovery.DisplayNameRoundTrip` |
| ZedDiscovery.DisplayNameRoundTrip | Editor/ZedDiscovery.cs:82-85 | the name starts with `Zed`, has a bracket exactly when a version was found, and the version can be read back from the name |
| ZedDiscovery.Installed | Editor/ZedDiscovery.cs:77-91 | the installation's path is the candidate's absolute path; it throws exactly when the candidate's strategy throws; otherwise the name is the display name of the strategy's answer, so exactly `Zed` when it finds nothing and `Zed [v]` when it finds `v`, and the version can be read back from the name |
| ZedDiscovery.FirstInstallation | Editor/ZedDiscovery.cs:75-97 | the scan of a candidate list reports at most one installation |
| ZedDiscovery.Discover | Editor/ZedDiscovery.cs:15-97 | discovery reports at most one installation |
| ZedDiscovery.GetInstallations | Editor/ZedDiscovery.cs:15-98 | the method's result is the discovery result |
| ZedDiscovery.ScanCandidates | Editor/ZedDiscovery.cs:75-97 | the `foreach` with `break` computes the first-existing-candidate result, including its exception |
| ZedDiscovery.TryGetInstallationForPath | Editor/ZedDiscovery.cs:100-113 | it throws exactly when discovery throws; a found installation is the discovered one and has exactly the given path; when nothing is found, no discovered installation has that path |
| ZedDiscovery.FindByPath | Editor/ZedDiscovery.cs:102-112 | the lookup loop returns the first listed installation whose path is exactly the given one, and nothing only when no listed installation has that path |
| ZedDiscovery.EarliestExistingWins | Editor/ZedDiscovery.cs:75-95 | when candidate `i` exists and none before it does, the result is candidate `i`'s installation, whatever exists later |
| ZedDiscovery.NeverPastAnExistingCandidate | Editor/ZedDiscovery.cs:75-95 | when candidate `i` exists, the reported installation comes from candidate `i` or an earlier one |
| ZedDiscovery.NothingInstalled | Editor/ZedDiscovery.cs:75-97 | the result is the empty list, not an error, exactly when no candidate exists |
| ZedDiscovery.MacPlistPath | Editor/ZedDiscovery.cs:130 | the plist consulted for the macOS `cli` is `/Applications/Zed.app/Contents/Info.plist` |
| ZedDiscovery.PlistPath | Editor/ZedDiscovery.cs:130 | definition of `path.Combine("../../").Combine("Info.plist")` as two parents and a join; properties in `ZedDiscovery.MacPlistPath` |
| ZedDiscovery.DiscoveryThrowsIffMalformedPlist | Editor/ZedDiscovery.cs:126-166 | discovery throws exactly when the host is not Windows, the macOS `cli` and its `Info.plist` exist, and the plist is malformed |
| ZedDiscovery.MacBundleVersion | Editor/ZedDiscovery.cs:126-141 | the macOS candidate's installation carries the bundle's short version in its name |
| ZedDiscovery.MacBundleScenario | Editor/ZedDiscovery.cs:126-141 | a macOS bundle with short version 0.190.0 is reported as `Zed [0.190.0]` at the `cli`'s absolute path |
| ZedDiscovery.LocalBinScenario | Editor/ZedDiscovery.cs:72-85 | when only `~/.local/bin/zed` exists, it is reported as plain `Zed` |
| ZedDiscovery.WindowsExeVersion | Editor/ZedDiscovery.cs:143-166 | on Windows, an existing bare `zed.exe` with non-empty file version `v` is installed as `Zed [v]` |
| ZedDiscovery.WindowsPathScenario | Editor/ZedDiscovery.cs:143-166 | when only the bare `zed.exe` exists on Windows and has file version `v`, it is reported as `Zed [v]` |
| ZedProcess.RequestFor | Editor/ZedProcess.cs:29-45 | a file is opened exactly when `filePath` is not empty; a line is given exactly when `line >= 0`; a column is given exactly when both `line >= 0` and `column >= 0`; the values carry through |
| ZedProcess.PositionSuffix | Editor/ZedProcess.cs:34-44 | definition of the `:line[:column]` suffix; properties in `ZedProcess.PositionRoundTrip` |
| ZedProcess.Render | Editor/ZedProcess.cs:26-45 | definition of the argument string; properties in `ZedProcess.RenderRoundTrip` and the sample lemmas |
| ZedProcess.PositionRoundTrip | Editor/ZedProcess.cs:34-43 | the `:line[:column]` suffix parses back to the position it renders |
| ZedProcess.FileTargetRoundTrip | Editor/ZedProcess.cs:31-43 | ` -a "file"` plus the suffix parses back to the file and position, for a file path without a double quote |
| ZedProcess.RenderRoundTrip | Editor/ZedProcess.cs:26-45 | the argument string is unambiguous: parsing it gives back the project, the file, the line and the column, when no path contains a double quote |
| ZedProcess.SampleArgumentsWithPosition | Editor/ZedProcess.cs:26-45 | project `/p`, file `f.cs`, line 12, column 4 give `"/p" -a "f.cs":12:4` |
| ZedProcess.SampleArgumentsColumnOnly | Editor/ZedProcess.cs:34-43 | a column without a line is dropped: `"/p" -a "f.cs"` |
| ZedProcess.ZedProcess.constructor | Editor/ZedProcess.cs:15-19 | the project path is the parent of the Assets folder |
| ZedProcess.ZedProcess.OpenProject | Editor/ZedProcess.cs:21-57 | it returns true exactly when the launcher, given the executable and the rendered request, returns true; when the launcher throws, it returns false |
| ZedSettings.OmniSharpCandidates | Editor/ZedSettings.cs:75-83 | there are five candidates; the last is the bare `omnisharp.exe` |
| ZedSettings.VisualStudioCodeScript | Editor/ZedSettings.cs:78 | definition of the VS Code launcher candidate; properties in `ZedSettings.OmniSharpCandidateNames` |
| ZedSettings.VisualStudioRoslyn | Editor/ZedSettings.cs:79-81 | definition of the Visual Studio 2022 candidates; properties in `ZedSettings.OmniSharpCandidateNames` |
| ZedSettings.OmniSharpCandidateNames | Editor/ZedSettings.cs:75-83 | the first candidate ends with `omnisharp.cmd` and the other four with `omnisharp.exe` |
| ZedSettings.OmniSharpPath | Editor/ZedSettings.cs:73-131 | definition of what `FindOmniSharpPath` answers; properties in `ZedSettings.EarliestCandidateWins`, `ZedSettings.FallbackWhenNothingExists` and `ZedSettings.FoundCandidateIsNotNull` |
| ZedSettings.ToolFallback | Editor/ZedSettings.cs:93-130 | definition of the `dotnet tool list` fallback; properties in `ZedSettings.ScanToolList` and `ZedSettings.FallbackWhenNothingExists` |
| ZedSettings.ToolListMentions | Editor/ZedSettings.cs:110-121 | definition of the two-stage mention test; properties in `ZedSettings.ToolListMentionsIffContains` |
| ZedSettings.DefaultSettings | Editor/ZedSettings.cs:133-237 | definition: the scalar leaves of the default document, with an empty OmniSharp path; properties in `ZedSettings.CreatedHasFoundPath` |
| ZedSettings.FoundCandidateIsNotNull | Editor/ZedSettings.cs:85-91 | when some candidate exists, the answer is not empty, so the `IsNullOrEmpty` guards of the create and update paths never drop a found candidate |
| ZedSettings.FindOmniSharpPath | Editor/ZedSettings.cs:73-131 | the method's result is the first existing candidate, or else the tool-list fallback |
| ZedSettings.FirstExisting | Editor/ZedSettings.cs:85-91 | the `foreach` returns the first candidate that exists, and nothing exactly when none does |
| ZedSettings.ScanToolList | Editor/ZedSettings.cs:94-128 | the line scan answers `"omnisharp"` exactly when the output and one of its lines mention it; a throwing process gives null |
| ZedSettings.ToolListMentionsIffContains | Editor/ZedSettings.cs:110-121 | some line mentions `omnisharp` exactly when the whole output does |
| ZedSettings.EarliestCandidateWins | Editor/ZedSettings.cs:85-91 | when candidate `i` exists and none before it does, the answer is candidate `i` |
| ZedSettings.FallbackWhenNothingExists | Editor/ZedSettings.cs:93-130 | when no candidate exists, the answer is `"omnisharp"` exactly when the tool list ran and mentions it, and null otherwise |
| ZedSettings.CurrentPath | Editor/ZedSettings.cs:54 | definition: the stored OmniSharp path, empty when the node is missing; properties in `ZedSettings.SyncOnlyTouchesPath` |
| ZedSettings.CreatedSettings | Editor/ZedSettings.cs:36-46 | definition of the created document; properties in `ZedSettings.CreatedHasFoundPath` |
| ZedSettings.UpdatedSettings | Editor/ZedSettings.cs:54-65 | definition of the updated document; properties in `ZedSettings.SyncNeverOverwrites` and `ZedSettings.SyncOnlyTouchesPath` |
| ZedSettings.SyncedFile | Editor/ZedSettings.cs:19-71 | a sync always leaves a file behind, and a created file holds the found path (or the default empty one); further properties in `ZedSettings.SyncNeverOverwrites`, `ZedSettings.SyncOnlyTouchesPath` and `ZedSettings.SyncSettles` |
| ZedSettings.CreatedHasFoundPath | Editor/ZedSettings.cs:33-47 | a created file's OmniSharp path is the found path, or the default empty one; every other default is kept |
| ZedSettings.SyncNeverOverwrites | Editor/ZedSettings.cs:54-65 | an existing non-empty OmniSharp path is never overwritten, and the file is left as it was |
| ZedSettings.SyncOnlyTouchesPath | Editor/ZedSettings.cs:54-65 | an update adds no key but the OmniSharp path, keeps every other entry, and changes the path only from empty to the found one |
| ZedSettings.SyncSettles | Editor/ZedSettings.cs:19-71 | after a sync that found a path and hit no fault, every later sync leaves the file unchanged |
| ZedSettings.ZedSettings.constructor | Editor/ZedSettings.cs:14-17 | the settings file is `.zed/settings.json` under the project folder |
| ZedSettings.ZedSettings.Sync | Editor/ZedSettings.cs:19-31 | a missing file is created with the defaults; an existing one only goes through the update |
| ZedSettings.ZedSettings.CreateDefaultSettings | Editor/ZedSettings.cs:33-47 | the file becomes the defaults, with the found OmniSharp path when it is not empty |
| ZedSettings.ZedSettings.UpdateOmniSharpPath | Editor/ZedSettings.cs:49-71 | a missing file or a failed read changes nothing; otherwise the path is filled only where it was empty; a failed write is swallowed and leaves the file as it was |

## Left out

- Filesystem probing (`FileExists`, `File.Exists`) is an oracle over path strings in `Host`. `MakeAbsolute` is an oracle too, so discovery's absolute path is whatever the host answers.
- The settings file is the class's `file` field: absent, or holding a document. Its existence is not asked of the `Host` oracle.
- `NPath` normalisation is not modelled. `Combine` joins with the platform separator; the plist's `../../` is modelled as taking the parent twice. The `NPath` that `ZedProcess` and `ZedSettings` use is taken as `/`-separated. Windows `Path.Combine` resetting on a rooted segment is not modelled; every segment in the source is relative.
- Parsing `Info.plist` with XPath and `FileVersionInfo.GetVersionInfo` are foreign libraries. They are oracles (`PlistDocument`, `FileVersionInfo`); a throwing `GetVersionInfo` is `Unreadable`.
- Spawning `dotnet tool list`: the captured output, or an exception, is a `Host` field. The `| findstr omnisharp` in its arguments is not modelled.
- `CodeEditor.OSOpenFile` is a function parameter of `OpenProject` that returns a verdict or an exception.
- Logging through `sLogger` has no behavioural effect and is left out.
- JSON parsing and serialisation are left out. The document is a map from dotted JSON path to scalar value. The defaults hold only the `languages`, `lsp.omnisharp.binary` and `project_panel` string leaves. `file_scan_exclusions` and `initialization_options` are not represented. A file that cannot be read or parsed is the `readFails` fault.
- ZedSettings.ZedSettings.CreateDefaultSettings: `CreateFile` and `WriteAllText` failures propagate out of `Sync` in the source; the model treats creating the file as always succeeding.
- Null strings (`filePath`, a `FileVersion`, the result of `FindOmniSharpPath`) are the empty string; the source tests them only with `IsNullOrEmpty`.
- ZedDiscovery.WindowsInstallPaths: the contract states only the number of locations; their order and spelling are the function's body.
- ZedDiscovery.UnixInstallPaths: the contract states only the number of locations; their order and spelling are the function's body.
- ZedSettings.OmniSharpCandidates: the contract states the count and the last entry, and `ZedSettings.OmniSharpCandidateNames` the file name each entry ends with; the directories are the function's body.
- The 32-bit range of `line` and `column` is not modelled; a non-negative value is rendered in decimal either way.
