/**
 * Launching Zed: the argument string names the project and, optionally, a file with a
 * line and column, and the launcher's verdict is passed back.
 */
module ZedProcess {
  import opened Wrappers
  import opened Text
  import opened Paths

  /** Where in the file to open: a column is only ever given together with a line. */
  datatype Position = NoPosition | Line(line: nat) | LineAndColumn(line: nat, column: nat)

  datatype FileTarget = FileTarget(path: string, position: Position)

  /** What the argument string asks Zed to open. */
  datatype LaunchRequest = LaunchRequest(projectPath: string, file: Option<FileTarget>)

  /** The request `OpenProject(filePath, line, column)` makes: no file when `filePath` is null or
      empty, a line only when `line >= 0`, a column only when the line is there and `column >= 0`. */
  function RequestFor(projectPath: string, filePath: string, line: int, column: int): (r: LaunchRequest)
    ensures r.projectPath == projectPath
    ensures r.file.None? <==> filePath == ""
    ensures r.file.Some? ==> r.file.value.path == filePath
    ensures r.file.Some? ==> (r.file.value.position.NoPosition? <==> line < 0)
    ensures r.file.Some? ==> (r.file.value.position.LineAndColumn? <==> line >= 0 && column >= 0)
    ensures r.file.Some? && !r.file.value.position.NoPosition? ==> r.file.value.position.line == line
    ensures r.file.Some? && r.file.value.position.LineAndColumn? ==> r.file.value.position.column == column
  {
    if filePath == "" then LaunchRequest(projectPath, None)
    else
      var position :=
        if line < 0 then NoPosition
        else if column < 0 then Line(line)
        else LineAndColumn(line, column);
      LaunchRequest(projectPath, Some(FileTarget(filePath, position)))
  }

  /** `":line"` or `":line:column"`, in decimal. */
  function PositionSuffix(p: Position): string
  {
    match p
    case NoPosition => ""
    case Line(l) => ":" + NatToString(l)
    case LineAndColumn(l, c) => ":" + NatToString(l) + ":" + NatToString(c)
  }

  /** The command-line text of a request: the quoted project, then `-a` and the quoted file with
      its position. */
  function Render(r: LaunchRequest): string
  {
    Quote(r.projectPath) +
      match r.file
      case None => ""
      case Some(t) => " -a " + Quote(t.path) + PositionSuffix(t.position)
  }

  /** Reads a request back from its command-line text. */
  function ParseArguments(args: string): Option<LaunchRequest>
  {
    if args == [] || args[0] != '"' then None
    else match IndexOf(args[1..], '"')
      case None => None
      case Some(i) =>
        var rest := args[i + 2..];
        if rest == "" then Some(LaunchRequest(args[1..i + 1], None))
        else match ParseFileTarget(rest)
          case None => None
          case Some(t) => Some(LaunchRequest(args[1..i + 1], Some(t)))
  }

  const FileFlag := " -a \""

  function ParseFileTarget(s: string): Option<FileTarget>
  {
    if |s| < |FileFlag| || s[..|FileFlag|] != FileFlag then None
    else
      var body := s[|FileFlag|..];
      match IndexOf(body, '"')
      case None => None
      case Some(j) =>
        match ParsePosition(body[j + 1..])
        case None => None
        case Some(p) => Some(FileTarget(body[..j], p))
  }

  function ParsePosition(s: string): Option<Position>
  {
    if s == "" then Some(NoPosition)
    else if s[0] != ':' then None
    else
      var body := s[1..];
      match IndexOf(body, ':')
      case None =>
        (match ParseNat(body)
         case None => None
         case Some(l) => Some(Line(l)))
      case Some(k) =>
        match (ParseNat(body[..k]), ParseNat(body[k + 1..]))
        case (Some(l), Some(c)) => Some(LineAndColumn(l, c))
        case _ => None
  }

  lemma NoColonInDigits(s: string)
    requires AllDigits(s)
    ensures ':' !in s
  {
    assert forall i :: 0 <= i < |s| ==> s[i] != ':';
  }

  lemma {:induction false} PositionRoundTrip(p: Position)
    ensures ParsePosition(PositionSuffix(p)) == Some(p)
  {
    match p
    case NoPosition =>
    case Line(l) =>
      var s := PositionSuffix(p);
      assert s[1..] == NatToString(l);
      NoColonInDigits(NatToString(l));
      ParseNatToString(l);
    case LineAndColumn(l, c) =>
      var s := PositionSuffix(p);
      var ls, cs := NatToString(l), NatToString(c);
      assert s[1..] == ls + [':'] + cs;
      NoColonInDigits(ls);
      IndexOfAfter(ls, ':', cs);
      assert (ls + [':'] + cs)[..|ls|] == ls;
      assert (ls + [':'] + cs)[|ls| + 1..] == cs;
      ParseNatToString(l);
      ParseNatToString(c);
  }

  lemma FileTargetRoundTrip(t: FileTarget)
    requires '"' !in t.path
    ensures ParseFileTarget(" -a " + Quote(t.path) + PositionSuffix(t.position)) == Some(t)
  {
    var suffix := PositionSuffix(t.position);
    var s := " -a " + Quote(t.path) + suffix;
    var body := t.path + ['"'] + suffix;
    assert s == FileFlag + body;
    assert s[..|FileFlag|] == FileFlag && s[|FileFlag|..] == body;
    IndexOfAfter(t.path, '"', suffix);
    assert body[..|t.path|] == t.path;
    assert body[|t.path| + 1..] == suffix;
    PositionRoundTrip(t.position);
  }

  /** The argument string is unambiguous: parsing it gives back the request, provided neither
      path contains a double quote. */
  lemma RenderRoundTrip(r: LaunchRequest)
    requires '"' !in r.projectPath
    requires r.file.Some? ==> '"' !in r.file.value.path
    ensures ParseArguments(Render(r)) == Some(r)
  {
    var args := Render(r);
    var tail := match r.file
      case None => ""
      case Some(t) => " -a " + Quote(t.path) + PositionSuffix(t.position);
    assert args == ['"'] + (r.projectPath + ['"'] + tail);
    assert args[1..] == r.projectPath + ['"'] + tail;
    IndexOfAfter(r.projectPath, '"', tail);
    assert args[1..|r.projectPath| + 1] == r.projectPath;
    assert args[|r.projectPath| + 2..] == tail;
    if r.file.Some? {
      FileTargetRoundTrip(r.file.value);
      assert tail != "";
    }
  }

  /** Opening file `f.cs` of project `/p` at line 12, column 4. */
  lemma SampleArgumentsWithPosition()
    ensures Render(RequestFor("/p", "f.cs", 12, 4)) == "\"/p\" -a \"f.cs\":12:4"
  {
    var r := RequestFor("/p", "f.cs", 12, 4);
    assert r == LaunchRequest("/p", Some(FileTarget("f.cs", LineAndColumn(12, 4))));
    assert NatToString(12) == "12" by {
      assert NatToString(1) == "1";
    }
    assert NatToString(4) == "4";
    assert Render(r) == Quote("/p") + (" -a " + Quote("f.cs") + (":" + "12" + ":" + "4"));
  }

  /** A column without a line is dropped. */
  lemma SampleArgumentsColumnOnly()
    ensures Render(RequestFor("/p", "f.cs", -1, 4)) == "\"/p\" -a \"f.cs\""
  {
    var r := RequestFor("/p", "f.cs", -1, 4);
    assert r == LaunchRequest("/p", Some(FileTarget("f.cs", NoPosition)));
    assert Render(r) == Quote("/p") + (" -a " + Quote("f.cs") + "");
  }

  /** The project opened in Zed is the parent of the Assets folder, `Application.dataPath`. */
  class ZedProcess {
    const execPath: string
    const projectPath: string

    constructor(execPath: string, dataPath: string)
      ensures this.execPath == execPath
      ensures projectPath == Parent(dataPath, '/')
    {
      this.execPath := execPath;
      this.projectPath := Parent(dataPath, '/');
    }

    /** `OpenProject`: builds the argument string and returns the launcher's verdict, or false if
        the launcher throws. A null `filePath` is the empty string here. */
    method OpenProject(filePath: string, line: int, column: int, osOpenFile: (string, string) -> Result<bool>)
      returns (launched: bool)
      ensures launched <==> osOpenFile(execPath, Render(RequestFor(projectPath, filePath, line, column))) == Ok(true)
    {
      ghost var request := RequestFor(projectPath, filePath, line, column);
      var args := Quote(projectPath);
      if filePath != "" {
        ghost var target := request.file.value;
        args := args + " -a ";
        args := args + Quote(filePath);
        if line >= 0 {
          args := args + ":";
          args := args + NatToString(line);
          if column >= 0 {
            args := args + ":";
            args := args + NatToString(column);
          }
        }
        assert args == Quote(projectPath) + (" -a " + Quote(filePath) + PositionSuffix(target.position));
      }
      assert args == Render(request);
      match osOpenFile(execPath, args)
      case Ok(result) => launched := result;
      case Exception => launched := false;
    }
  }
}
