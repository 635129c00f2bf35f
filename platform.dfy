/** What the plugin asks of its host: environment lookups, the filesystem and foreign libraries. */
module Platform {
  import opened Wrappers

  /** What `new XPathDocument(path)` followed by the `CFBundleShortVersionString` query yields. */
  datatype PlistDocument =
    | Malformed                                // the constructor throws (unreadable file, invalid XML)
    | Parsed(shortVersion: Option<string>)     // the query's text node, if the key is present

  /** What `FileVersionInfo.GetVersionInfo(path)` yields; a null `FileVersion` is the empty string. */
  datatype FileVersionInfo = Unreadable | VersionResource(fileVersion: string)

  /**
   * One snapshot of the environment: every value is read as the source reads it
   * (`Application.platform`, `Environment.GetFolderPath`, `NPath.HomeDirectory`,
   * `Environment.UserName`, `Application.dataPath`), and every filesystem or library call
   * is an oracle over path strings.
   */
  datatype Host = Host(
    isWindows: bool,
    localAppData: string,
    appData: string,
    programFiles: string,
    homeDirectory: string,
    userName: string,
    dataPath: string,
    fileExists: string -> bool,
    makeAbsolute: string -> string,
    readPlist: string -> PlistDocument,
    fileVersionInfo: string -> FileVersionInfo,
    dotnetToolList: Result<string>)      // the captured output of `dotnet tool list`, or a throw

  /** The directory separator of the platform's path strings. */
  function Separator(h: Host): char
  {
    if h.isWindows then '\\' else '/'
  }
}
