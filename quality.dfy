/** The code quality checker: it runs Bandit and Ruff as subprocesses,
    counts the blank, comment and code lines of the project's Python files,
    prints a report with per-tool and overall scores, and exits 0 exactly
    when both tools pass. */
module Quality {
  import opened Wrappers
  import opened Text
  import Output

  // ---------------------------------------------------------------------
  // Running a tool

  /** What subprocess.run did: the process ran to its end, or starting it
      raised with a message. */
  datatype Launch = Completed(returncode: int, stdout: string, stderr: string) | LaunchFailed(message: string)

  datatype CommandResult = CommandResult(exitCode: int, stdout: string, stderr: string)

  /** run_command: the process's exit code and output, or exit code 1 and
      the exception's text as stderr when it could not be run. */
  function RunCommand(launch: Launch): (r: CommandResult)
    ensures r.exitCode == 0 <==> launch.Completed? && launch.returncode == 0
    ensures launch.Completed? ==> r.stdout == launch.stdout && r.stderr == launch.stderr
    ensures launch.LaunchFailed? ==> r.exitCode != 0 && r.stdout == "" && r.stderr == launch.message
  {
    match launch
    case Completed(code, out, err) => CommandResult(code, out, err)
    case LaunchFailed(message) => CommandResult(1, "", message)
  }

  /** Bandit passes when it exits 0 or reports that it found no issues. */
  predicate BanditPassed(r: CommandResult) {
    Contains(r.stderr, "No issues identified") || r.exitCode == 0
  }

  /** Ruff passes when it exits 0 and reports that all checks passed. */
  predicate RuffPassed(r: CommandResult) {
    r.exitCode == 0 && Contains(r.stdout, "All checks passed")
  }

  /** The pass rules on a run of each tool, stated through the occurrence
      of the marker text. */
  lemma PassRules(launch: Launch)
    ensures BanditPassed(RunCommand(launch)) <==>
      (launch.Completed? && launch.returncode == 0) ||
      exists i :: OccursAt(RunCommand(launch).stderr, "No issues identified", i)
    ensures RuffPassed(RunCommand(launch)) <==>
      launch.Completed? && launch.returncode == 0 && exists i :: OccursAt(launch.stdout, "All checks passed", i)
  {
  }

  /** A tool that could not be started never passes Ruff, and passes
      Bandit only when the exception's own text carries Bandit's marker. */
  lemma LaunchFailureFails(message: string)
    ensures !RuffPassed(RunCommand(LaunchFailed(message)))
    ensures BanditPassed(RunCommand(LaunchFailed(message))) <==> Contains(message, "No issues identified")
  {
  }

  // ---------------------------------------------------------------------
  // Scores and the exit code

  /** A tool's score column. */
  function ToolScore(passed: bool): (s: string)
    ensures s == "100%" <==> passed
    ensures s == "0%" <==> !passed
  {
    if passed then "100%" else "0%"
  }

  /** The overall score: 100% when both pass, 50% when exactly one does,
      0% when neither does. */
  function OverallScore(banditPassed: bool, ruffPassed: bool): (s: string)
    ensures s == "100%" <==> banditPassed && ruffPassed
    ensures s == "50%" <==> banditPassed != ruffPassed
    ensures s == "0%" <==> !banditPassed && !ruffPassed
  {
    if banditPassed && ruffPassed then "100%" else if banditPassed || ruffPassed then "50%" else "0%"
  }

  /** The status column: a green pass or a red failure. */
  function Status(passed: bool): (s: Output.Span)
    ensures s.style == Output.Green <==> passed
    ensures s.style == Output.Red <==> !passed
  {
    if passed then Output.Span(Output.Green, "\U{2705} PASSED") else Output.Span(Output.Red, "\U{274C} FAILED")
  }

  datatype ScoreRow = ScoreRow(category: string, score: string, status: Output.Span)

  /** The quality scores table: security, code quality and overall. */
  function ScoreRows(banditPassed: bool, ruffPassed: bool): (rows: seq<ScoreRow>)
    ensures |rows| == 3
    ensures rows[0].category == "Security" && rows[1].category == "Code Quality" && rows[2].category == "Overall"
    ensures rows[0].score == "100%" <==> banditPassed
    ensures rows[1].score == "100%" <==> ruffPassed
    ensures rows[2].score == "100%" <==> rows[0].score == "100%" && rows[1].score == "100%"
    ensures rows[2].score == "50%" <==> (rows[0].score == "100%") != (rows[1].score == "100%")
    ensures forall i :: 0 <= i < 3 ==> (rows[i].status.style == Output.Green <==> rows[i].score == "100%")
  {
    [ScoreRow("Security", ToolScore(banditPassed), Status(banditPassed)),
     ScoreRow("Code Quality", ToolScore(ruffPassed), Status(ruffPassed)),
     ScoreRow("Overall", OverallScore(banditPassed, ruffPassed), Status(banditPassed && ruffPassed))]
  }

  /** The report panel's headline, green when both pass and red otherwise. */
  function Headline(banditPassed: bool, ruffPassed: bool): (s: Output.Span)
    ensures s.style == Output.Green <==> banditPassed && ruffPassed
    ensures s.style == Output.Red <==> !(banditPassed && ruffPassed)
  {
    if banditPassed && ruffPassed then Output.Span(Output.Green, "\U{2705} CODE QUALITY: 100%")
    else Output.Span(Output.Red, "\U{274C} QUALITY CHECKS FAILED")
  }

  /** The overall row is green exactly when each tool's row is. */
  lemma OverallGreenIffBothGreen(banditPassed: bool, ruffPassed: bool)
    ensures ScoreRows(banditPassed, ruffPassed)[2].status.style == Output.Green <==>
      ScoreRows(banditPassed, ruffPassed)[0].status.style == Output.Green &&
      ScoreRows(banditPassed, ruffPassed)[1].status.style == Output.Green
  {
  }

  // ---------------------------------------------------------------------
  // Line classification

  datatype LineKind = Blank | Comment | Code

  /** A stripped line is empty exactly when the line is all white space,
      and otherwise starts with the line's first non-space character. */
  lemma StripFirst(s: string)
    ensures Strip(s) == [] <==> forall i :: 0 <= i < |s| ==> IsSpace(s[i])
    ensures Strip(s) != [] ==> LeadingCount(s, IsSpace) < |s| && Strip(s)[0] == s[LeadingCount(s, IsSpace)]
  {
    var a := LeadingCount(s, IsSpace);
    var rest := s[a..];
    var b := TrailingCount(rest, IsSpace);
    assert Strip(s) == rest[..|rest| - b];
  }

  /** A line is blank when it is white space only, a comment when its
      first non-space character is `#`, and code otherwise. */
  function Classify(line: string): (k: LineKind)
    ensures k == Blank <==> forall i :: 0 <= i < |line| ==> IsSpace(line[i])
    ensures k == Comment <==>
      exists j :: 0 <= j < |line| && line[j] == '#' && forall i :: 0 <= i < j ==> IsSpace(line[i])
  {
    StripFirst(line);
    var t := Strip(line);
    var n := LeadingCount(line, IsSpace);
    assert forall j :: 0 <= j < |line| && line[j] == '#' && (forall i :: 0 <= i < j ==> IsSpace(line[i])) ==> j == n;
    if t == "" then Blank else if StartsWith(t, "#") then Comment else Code
  }

  // ---------------------------------------------------------------------
  // The files counted

  /** `[f for f in python_files if "venv" not in str(f)]` */
  function Kept(paths: seq<string>): (r: seq<string>)
    ensures forall p :: p in r <==> p in paths && !Contains(p, "venv")
    ensures |r| <= |paths|
  {
    if paths == [] then []
    else
      var init := Kept(paths[..|paths| - 1]);
      var last := paths[|paths| - 1];
      assert paths == paths[..|paths| - 1] + [last];
      if Contains(last, "venv") then init else init + [last]
  }

  /** Each path given is kept as often as it was given, unless it lies
      under a "venv" directory. */
  lemma {:induction false} KeptCounts(paths: seq<string>)
    ensures forall p :: multiset(Kept(paths))[p] == if Contains(p, "venv") then 0 else multiset(paths)[p]
    decreases |paths|
  {
    if paths != [] {
      var init, last := paths[..|paths| - 1], paths[|paths| - 1];
      KeptCounts(init);
      assert paths == init + [last];
      assert multiset(paths) == multiset(init) + multiset{last};
    }
  }

  /** The filter keeps the order of the paths: it distributes over
      concatenation, so the kept paths of each part follow one another. */
  lemma {:induction false} KeptConcat(a: seq<string>, b: seq<string>)
    ensures Kept(a + b) == Kept(a) + Kept(b)
    decreases |b|
  {
    if b == [] {
      assert a + b == a;
    } else {
      var init, last := b[..|b| - 1], b[|b| - 1];
      var tail := if Contains(last, "venv") then [] else [last];
      assert b == init + [last];
      calc {
        Kept(a + b);
        { assert a + b == (a + init) + [last]; KeptSnoc(a + init, last); }
        Kept(a + init) + tail;
        { KeptConcat(a, init); }
        (Kept(a) + Kept(init)) + tail;
        Kept(a) + (Kept(init) + tail);
        { KeptSnoc(init, last); }
        Kept(a) + Kept(b);
      }
    }
  }

  /** One more path is kept at the end, or dropped. */
  lemma KeptSnoc(paths: seq<string>, last: string)
    ensures Kept(paths + [last]) == Kept(paths) + if Contains(last, "venv") then [] else [last]
  {
    assert (paths + [last])[..|paths|] == paths;
  }


  // ---------------------------------------------------------------------
  // Code statistics

  datatype Stats = Stats(pythonFiles: nat, totalLines: nat, codeLines: nat, commentLines: nat, blankLines: nat)

  /** Opening and reading a file: its lines as readlines() gives them, an
      OSError with its message, or a UnicodeDecodeError (which is not an
      OSError and so is not caught). */
  datatype FileRead = Lines(lines: seq<string>) | ReadFailed(message: string) | DecodeFailed

  /** One line counted in its bucket. */
  function Tally(s: Stats, line: string): Stats {
    match Classify(line)
    case Blank => s.(blankLines := s.blankLines + 1)
    case Comment => s.(commentLines := s.commentLines + 1)
    case Code => s.(codeLines := s.codeLines + 1)
  }

  /** The lines of one file counted, one after the other. */
  function TallyAll(s: Stats, lines: seq<string>): Stats {
    if lines == [] then s else Tally(TallyAll(s, lines[..|lines| - 1]), lines[|lines| - 1])
  }

  /** The buckets together grow by the number of lines counted, and
      nothing else changes. */
  lemma {:induction false} TallyAllGrows(s: Stats, lines: seq<string>)
    ensures TallyAll(s, lines).blankLines + TallyAll(s, lines).commentLines + TallyAll(s, lines).codeLines ==
      s.blankLines + s.commentLines + s.codeLines + |lines|
    ensures TallyAll(s, lines).pythonFiles == s.pythonFiles && TallyAll(s, lines).totalLines == s.totalLines
  {
    if lines != [] {
      TallyAllGrows(s, lines[..|lines| - 1]);
    }
  }

  /** What the file loop has produced so far: the statistics, or the
      exception that ended it, and the warnings printed. */
  datatype Progress = Progress(stats: Result<Stats, string>, warnings: seq<string>)

  /** The warning printed for a file that cannot be opened. */
  function Warning(path: string, message: string): string {
    "Warning: Could not read " + path + ": " + message
  }

  /** One file: its line count is added to the total and each line to its
      bucket; a file that cannot be opened is skipped with a warning; an
      undecodable file raises, and nothing runs after that. */
  function Step(p: Progress, path: string, read: string -> FileRead): (q: Progress)
    ensures p.stats.Err? ==> q == p
    ensures q.stats.Err? ==> q.warnings == p.warnings
  {
    match p.stats
    case Err(_) => p
    case Ok(s) =>
      match read(path)
      case Lines(lines) => Progress(Ok(TallyAll(s.(totalLines := s.totalLines + |lines|), lines)), p.warnings)
      case ReadFailed(message) => Progress(p.stats, p.warnings + [Warning(path, message)])
      case DecodeFailed => Progress(Err("UnicodeDecodeError"), p.warnings)
  }

  /** The loop over the files, in order. */
  function Run(files: seq<string>, read: string -> FileRead, p: Progress): Progress {
    if files == [] then p else Step(Run(files[..|files| - 1], read, p), files[|files| - 1], read)
  }

  /** What get_code_stats produces for the globbed paths: python_files is
      set before the loop, from the paths kept. */
  function CodeStats(paths: seq<string>, read: string -> FileRead): Progress {
    var files := Kept(paths);
    Run(files, read, Progress(Ok(Stats(|files|, 0, 0, 0, 0)), []))
  }

  /** Some file's contents cannot be decoded. */
  predicate Undecodable(files: seq<string>, read: string -> FileRead) {
    exists i :: 0 <= i < |files| && read(files[i]).DecodeFailed?
  }

  /** From a successful start, the loop fails exactly when some file
      cannot be decoded, and then with UnicodeDecodeError. */
  lemma {:induction false} RunFailsIffUndecodable(files: seq<string>, read: string -> FileRead, p: Progress)
    requires p.stats.Ok?
    ensures Run(files, read, p).stats.Err? <==> Undecodable(files, read)
    ensures Run(files, read, p).stats.Err? ==> Run(files, read, p).stats.error == "UnicodeDecodeError"
  {
    if files != [] {
      var init := files[..|files| - 1];
      RunFailsIffUndecodable(init, read, p);
      assert forall i :: 0 <= i < |init| ==> init[i] == files[i];
      if Undecodable(files, read) && !Undecodable(init, read) {
        assert read(files[|files| - 1]).DecodeFailed?;
      }
    }
  }

  /** The sum of the line counts of the files that can be read. */
  function LinesRead(files: seq<string>, read: string -> FileRead): nat {
    if files == [] then 0
    else
      LinesRead(files[..|files| - 1], read) +
      match read(files[|files| - 1])
      case Lines(lines) => |lines|
      case _ => 0
  }

  /** The buckets add up to the total. */
  predicate Balanced(s: Stats) {
    s.totalLines == s.blankLines + s.commentLines + s.codeLines
  }

  /** Counting keeps the file count and the balance of the buckets, and
      grows the total by the line counts of the files read. */
  lemma {:induction false} RunBalanced(files: seq<string>, read: string -> FileRead, p: Progress)
    requires p.stats.Ok? && Balanced(p.stats.value) && Run(files, read, p).stats.Ok?
    ensures Balanced(Run(files, read, p).stats.value)
    ensures Run(files, read, p).stats.value.pythonFiles == p.stats.value.pythonFiles
    ensures Run(files, read, p).stats.value.totalLines == p.stats.value.totalLines + LinesRead(files, read)
  {
    if files != [] {
      var init := files[..|files| - 1];
      RunBalanced(init, read, p);
      var s := Run(init, read, p).stats.value;
      match read(files[|files| - 1])
      case Lines(lines) => TallyAllGrows(s.(totalLines := s.totalLines + |lines|), lines);
      case ReadFailed(_) =>
      case DecodeFailed =>
    }
  }

  /** What get_code_stats promises: the file count is that of the paths
      kept, total lines are the lines of the files read, and each of them
      is blank, a comment or code. */
  lemma CodeStatsSound(paths: seq<string>, read: string -> FileRead)
    requires CodeStats(paths, read).stats.Ok?
    ensures CodeStats(paths, read).stats.value.pythonFiles == |Kept(paths)|
    ensures CodeStats(paths, read).stats.value.totalLines == LinesRead(Kept(paths), read)
    ensures Balanced(CodeStats(paths, read).stats.value)
  {
    var files := Kept(paths);
    RunBalanced(files, read, Progress(Ok(Stats(|files|, 0, 0, 0, 0)), []));
  }

  /** The warnings name, in order, the files that could not be opened
      before the first undecodable one. */
  lemma {:induction false} WarningsListUnopened(files: seq<string>, read: string -> FileRead, p: Progress)
    requires p.stats.Ok? && !Undecodable(files, read)
    ensures Run(files, read, p).warnings == p.warnings + Unopened(files, read)
  {
    if files != [] {
      var init := files[..|files| - 1];
      assert forall i :: 0 <= i < |init| ==> init[i] == files[i];
      WarningsListUnopened(init, read, p);
      RunFailsIffUndecodable(init, read, p);
    }
  }

  /** The warnings for the files that cannot be opened, in order. */
  function Unopened(files: seq<string>, read: string -> FileRead): seq<string> {
    if files == [] then []
    else
      var last := files[|files| - 1];
      Unopened(files[..|files| - 1], read) +
      (if read(last).ReadFailed? then [Warning(last, read(last).message)] else [])
  }

  /** The loop over one more file is one more step. */
  lemma RunStep(files: seq<string>, read: string -> FileRead, p: Progress, i: nat)
    requires i < |files|
    ensures Run(files[..i + 1], read, p) == Step(Run(files[..i], read, p), files[i], read)
  {
    assert files[..i + 1][..i] == files[..i];
    assert files[..i + 1][i] == files[i];
  }

  /** Once the loop has failed, no later file changes anything. */
  lemma {:induction false} FailureIsFinal(files: seq<string>, read: string -> FileRead, p: Progress, k: nat)
    requires k <= |files| && Run(files[..k], read, p).stats.Err?
    ensures Run(files, read, p) == Run(files[..k], read, p)
    decreases |files| - k
  {
    if k < |files| {
      assert files[..k + 1][..k] == files[..k];
      FailureIsFinal(files, read, p, k + 1);
    } else {
      assert files[..k] == files;
    }
  }

  /** The inner loop of get_code_stats: each line stripped and counted in
      its bucket. */
  method CountLines(start: Stats, lines: seq<string>) returns (stats: Stats)
    ensures stats == TallyAll(start, lines)
  {
    stats := start;
    var j := 0;
    while j < |lines|
      invariant 0 <= j <= |lines|
      invariant stats == TallyAll(start, lines[..j])
    {
      assert lines[..j + 1][..j] == lines[..j];
      var line := Strip(lines[j]);
      if line == "" {
        stats := stats.(blankLines := stats.blankLines + 1);
      } else if StartsWith(line, "#") {
        stats := stats.(commentLines := stats.commentLines + 1);
      } else {
        stats := stats.(codeLines := stats.codeLines + 1);
      }
      j := j + 1;
    }
    assert lines[..j] == lines;
  }

  /** The body of get_code_stats's file loop: open and read one file and
      count its lines, or print the warning for a file that cannot be
      opened. */
  method CountFile(stats: Stats, warnings: seq<string>, path: string, read: string -> FileRead)
    returns (r: Result<Stats, string>, printed: seq<string>)
    ensures Progress(r, printed) == Step(Progress(Ok(stats), warnings), path, read)
  {
    match read(path) {
      case DecodeFailed =>
        return Err("UnicodeDecodeError"), warnings;
      case ReadFailed(message) =>
        return Ok(stats), warnings + [Warning(path, message)];
      case Lines(lines) =>
        var counted := CountLines(stats.(totalLines := stats.totalLines + |lines|), lines);
        return Ok(counted), warnings;
    }
  }

  /** get_code_stats: the loop over the files kept. */
  method GetCodeStats(paths: seq<string>, read: string -> FileRead) returns (r: Result<Stats, string>, warnings: seq<string>)
    ensures Progress(r, warnings) == CodeStats(paths, read)
  {
    var files := Kept(paths);
    var stats := Stats(|files|, 0, 0, 0, 0);
    ghost var start := Progress(Ok(stats), []);
    warnings := [];
    var i := 0;
    while i < |files|
      invariant 0 <= i <= |files|
      invariant Run(files[..i], read, start) == Progress(Ok(stats), warnings)
    {
      RunStep(files, read, start, i);
      var next, printed := CountFile(stats, warnings, files[i], read);
      if next.Err? {
        FailureIsFinal(files, read, start, i + 1);
        return next, printed;
      }
      stats, warnings := next.value, printed;
      i := i + 1;
    }
    assert files[..i] == files;
    return Ok(stats), warnings;
  }

  // ---------------------------------------------------------------------
  // main

  /** How the checker ends: a tool missing (its `--version` run did not
      exit 0), an exception out of the line count, or the report. */
  datatype Outcome =
    | ToolMissing(tool: string, messages: seq<string>)
    | Crashed(error: string)
    | Reported(banditPassed: bool, ruffPassed: bool, stats: Stats)

  /** The exit status; an uncaught exception exits with 1 as well. */
  function ExitCode(o: Outcome): (code: int)
    ensures code == 0 <==> o.Reported? && o.banditPassed && o.ruffPassed
    ensures code == 0 || code == 1
  {
    match o
    case Reported(b, r, _) => if b && r then 0 else 1
    case _ => 1
  }

  /** main: the tools are looked for in order, bandit then ruff; then both
      run, then the lines are counted. */
  function Main(banditVersion: Launch, ruffVersion: Launch, bandit: Launch, ruff: Launch,
                stats: Result<Stats, string>): (o: Outcome)
    ensures o.ToolMissing? <==>
      RunCommand(banditVersion).exitCode != 0 || RunCommand(ruffVersion).exitCode != 0
    ensures o.ToolMissing? ==> o.tool == if RunCommand(banditVersion).exitCode != 0 then "bandit" else "ruff"
    ensures o.Crashed? <==> !o.ToolMissing? && stats.Err?
    ensures o.Reported? ==>
      o.banditPassed == BanditPassed(RunCommand(bandit)) &&
      o.ruffPassed == RuffPassed(RunCommand(ruff)) && stats == Ok(o.stats)
  {
    if RunCommand(banditVersion).exitCode != 0 then Missing("bandit")
    else if RunCommand(ruffVersion).exitCode != 0 then Missing("ruff")
    else
      var b := BanditPassed(RunCommand(bandit));
      var r := RuffPassed(RunCommand(ruff));
      match stats
      case Err(e) => Crashed(e)
      case Ok(s) => Reported(b, r, s)
  }

  function Missing(tool: string): Outcome {
    ToolMissing(tool, ["Error: " + tool + " is not installed", "Install with: pip install " + tool])
  }

  /** The checker exits 0 exactly when its overall score is 100%. */
  lemma ExitZeroIffFullScore(o: Outcome)
    requires o.Reported?
    ensures ExitCode(o) == 0 <==> OverallScore(o.banditPassed, o.ruffPassed) == "100%"
  {
  }

  /** A tool that cannot be started is reported missing. */
  lemma UnstartableToolIsMissing(message: string, ruffVersion: Launch, bandit: Launch, ruff: Launch,
                                 stats: Result<Stats, string>)
    ensures Main(LaunchFailed(message), ruffVersion, bandit, ruff, stats).ToolMissing?
    ensures ExitCode(Main(LaunchFailed(message), ruffVersion, bandit, ruff, stats)) == 1
  {
  }
}
