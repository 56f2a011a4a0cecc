/**
  Start-up of every demo program (demoLoad): the command-line options of the
  main module are applied in order to the demo's global settings. These are
  the data directories, the shader search path, the ShaderToy shader and
  floating-point trapping. `-h/--help` and `-v/--version` print their text and
  end the process with status 0.

  The option parser's result comes in as a parameter. It is the main module's
  option list, or None when the parser produced no main module. Text printed
  to standard output is returned as a string. The version strings come in as a
  `BuildInfo`.
*/
module Demo {
  import opened Wrappers

  /** Appending is associative; stated once so the proofs below can use it on
      exactly the terms they need. */
  lemma Assoc<T>(a: seq<T>, b: seq<T>, c: seq<T>)
    ensures (a + b) + c == a + (b + c)
  {
  }

  // -----------------------------------------------------------------------
  // The help table and its formatting.

  datatype ArgType = NoArg | Required | OptionalArg

  /** One row of the help table. A short name of '\0' means "none", and a
      long name of None is the table's end marker. */
  datatype HelpEntry = HelpEntry(arg: ArgType, short: char, long: Option<string>, text: string)

  /** The help table, end marker included. */
  const Table: seq<HelpEntry> := [
    HelpEntry(NoArg, 'h', Some("help"), "Prints this message and exits"),
    HelpEntry(NoArg, 'v', Some("version"), "Prints the version and exits"),
    HelpEntry(Required, 'd', Some("data"), "Adds a directory to look for data files"),
    HelpEntry(Required, 's', Some("shaders"), "Adds a directory to look for GLSL shaders"),
    HelpEntry(Required, 'f', Some("shader"), "ShaderToy demo: Select shader to load"),
    HelpEntry(NoArg, '\0', Some("fpe"), "Enable trapping on floating point exceptions"),
    HelpEntry(NoArg, '\0', None, "")
  ]

  /** The argument marker. The marker strings are indexed in declaration
      order of the argument kinds, so a required argument shows "[=arg]" and
      an optional one "=arg". */
  function ArgSuffix(t: ArgType): string {
    match t
    case NoArg => ""
    case Required => "[=arg]"
    case OptionalArg => "=arg"
  }

  /** The long-name column before padding: a dash, the long name, the marker. */
  function LongBuf(e: HelpEntry): string {
    (if e.long.Some? then "-" else " ") + (if e.long.Some? then e.long.value else "") + ArgSuffix(e.arg)
  }

  /** Left-justified in a field of `width` characters (a `%-Ns` conversion):
      the text itself first, then spaces up to the width; a longer text is
      not cut. */
  function PadRight(s: string, width: nat): (r: string)
    ensures |r| == if |s| >= width then |s| else width
    ensures r[..|s|] == s
    ensures forall k :: |s| <= k < |r| ==> r[k] == ' '
  {
    if |s| >= width then s else s + seq(width - |s|, _ => ' ')
  }

  /** One help line: a space, the short option (or two spaces), a space, the
      padded long-name column, a space, the description. */
  function HelpLine(e: HelpEntry): string {
    [' ', if e.short != '\0' then '-' else ' ', if e.short != '\0' then e.short else ' ', ' ']
      + PadRight(LongBuf(e), 18) + " " + e.text + "\n"
  }

  /** The help lines of the entries up to the first end marker. */
  function HelpLines(es: seq<HelpEntry>): string
    decreases |es|
  {
    if es == [] || es[0].long.None? then "" else HelpLine(es[0]) + HelpLines(es[1..])
  }

  /** The help lines of every entry given. */
  function AllLines(es: seq<HelpEntry>): string
    decreases |es|
  {
    if es == [] then "" else HelpLine(es[0]) + AllLines(es[1..])
  }

  datatype BuildInfo = BuildInfo(version: string, commit: string, date: string)

  function HelpHeader(info: BuildInfo, program: string): string {
    "IntenseLogic " + info.version + "\n" + "Usage: " + program + " [OPTIONS]\n\n" + "Options:\n"
  }

  /** What `-h/--help` prints. */
  function HelpText(info: BuildInfo, program: string): string {
    HelpHeader(info, program) + HelpLines(Table)
  }

  /** What `-v/--version` prints. */
  function VersionText(info: BuildInfo): string {
    "IntenseLogic " + info.version + "\n" + "Commit: " + info.commit + "\n" + "Built: " + info.date + "\n"
  }

  /** Every help line puts the description in the same column (23) when the
      long-name column fits its 18 characters: the short option at 1-2, the
      long-name column at 4-21, the description after one more space. */
  lemma HelpLineLayout(e: HelpEntry)
    requires |LongBuf(e)| <= 18
    ensures var line := HelpLine(e);
      && |line| == 24 + |e.text|
      && line[0] == ' ' && line[3] == ' ' && line[22] == ' '
      && line[1] == (if e.short != '\0' then '-' else ' ')
      && line[2] == (if e.short != '\0' then e.short else ' ')
      && line[4..4 + |LongBuf(e)|] == LongBuf(e)
      && (forall k :: 4 + |LongBuf(e)| <= k < 22 ==> line[k] == ' ')
      && line[23..] == e.text + "\n"
  {
    var head := [' ', if e.short != '\0' then '-' else ' ', if e.short != '\0' then e.short else ' ', ' '];
    var pad := PadRight(LongBuf(e), 18);
    var tail := " " + e.text + "\n";
    var line := HelpLine(e);
    assert |head| == 4 && |pad| == 18;
    assert line == head + pad + tail;
    assert line[..4] == head;
    assert forall k :: 0 <= k < 18 ==> line[4 + k] == pad[k];
    assert line[4..22] == pad;
    assert line[22..] == tail;
    assert tail[1..] == e.text + "\n";
    assert pad[..|LongBuf(e)|] == LongBuf(e);
    assert line[4..4 + |LongBuf(e)|] == pad[..|LongBuf(e)|];
  }

  /** Every entry of the table before the end marker fits the 18-character
      column, so all descriptions line up. */
  lemma TableFitsColumn()
    ensures forall j :: 0 <= j < 6 ==> Table[j].long.Some? && |LongBuf(Table[j])| <= 18
    ensures Table[6].long.None?
  {
  }

  /** Help output stops at the first end marker: it lists the entries before
      it, in table order, and nothing after it. */
  lemma {:induction false} HelpStopsAtMarker(es: seq<HelpEntry>, k: nat)
    requires k < |es| && es[k].long.None?
    requires forall j :: 0 <= j < k ==> es[j].long.Some?
    ensures HelpLines(es) == AllLines(es[..k])
    decreases k
  {
    if k > 0 {
      HelpStopsAtMarker(es[1..], k - 1);
      assert es[..k][1..] == es[1..][..k - 1];
    }
  }

  /** The help lists the six options of the table, in order. */
  lemma HelpListsTable()
    ensures HelpLines(Table) == AllLines(Table[..6])
  {
    TableFitsColumn();
    HelpStopsAtMarker(Table, 6);
  }

  /** The help loop: the header, then one formatted line per table entry
      until the end marker. */
  method WriteHelp(info: BuildInfo, program: string) returns (text: string)
    ensures text == HelpText(info, program)
  {
    text := HelpHeader(info, program);
    var i := 0;
    while Table[i].long.Some?
      invariant 0 <= i <= 6
      invariant text + HelpLines(Table[i..]) == HelpText(info, program)
      decreases 6 - i
    {
      var e := Table[i];
      var longbuf := LongBuf(e);
      var line := [' ', if e.short != '\0' then '-' else ' ', if e.short != '\0' then e.short else ' ', ' ']
                  + PadRight(longbuf, 18) + " " + e.text + "\n";
      assert HelpLines(Table[i..]) == line + HelpLines(Table[i + 1..]) by {
        assert Table[i..][1..] == Table[i + 1..];
      }
      Assoc(text, line, HelpLines(Table[i + 1..]));
      text := text + line;
      i := i + 1;
    }
  }

  // -----------------------------------------------------------------------
  // Option dispatch.

  /** One parsed option: its name (without dashes) and its argument text. */
  datatype Opt = Opt(name: string, arg: string)

  /** The global state the options change. */
  datatype Settings = Settings(
    dataDirs: seq<string>,
    shaderPaths: seq<string>,
    demoShader: Option<string>,
    fpeTrapping: bool,
    log: seq<string>)

  /** Where processing stands: still going, or the process has exited. */
  datatype Step = Next(s: Settings) | Exit(s: Settings, status: int, output: string)

  /** An option matches an entry when its name is the short or the long name. */
  predicate Named(o: Opt, short: string, long: string) {
    o.name == short || o.name == long
  }

  predicate Exits(o: Opt) {
    Named(o, "h", "help") || Named(o, "v", "version")
  }

  const FpeMessage: string := "Floating point exceptions enabled"

  /** One pass of the option loop. The checks run one after the other;
      `-f` skips the rest of the pass. */
  function ApplyOpt(s: Settings, o: Opt, info: BuildInfo, program: string): Step {
    if Named(o, "h", "help") then Exit(s, 0, HelpText(info, program))
    else if Named(o, "v", "version") then Exit(s, 0, VersionText(info))
    else
      var s1 := if Named(o, "d", "data") then s.(dataDirs := s.dataDirs + [o.arg]) else s;
      var s2 := if Named(o, "s", "shaders") then s1.(shaderPaths := s1.shaderPaths + [o.arg]) else s1;
      if Named(o, "f", "shader") then Next(s2.(demoShader := Some(o.arg)))
      else if Named(o, "", "fpe") then Next(s2.(fpeTrapping := true, log := s2.log + [FpeMessage]))
      else Next(s2)
  }

  /** The option loop over a list, stopping at the first exit. */
  function Run(s: Settings, opts: seq<Opt>, info: BuildInfo, program: string): Step
    decreases |opts|
  {
    if opts == [] then Next(s)
    else
      match ApplyOpt(s, opts[0], info, program)
      case Exit(s', status, out) => Exit(s', status, out)
      case Next(s') => Run(s', opts[1..], info, program)
  }

  /** The log lines written once the options are applied. */
  function StartupLog(info: BuildInfo): seq<string> {
    ["Initializing engine.", "IntenseLogic " + info.version, "IL Commit: " + info.commit, "Built " + info.date]
  }

  function OptsOf(mainOpts: Option<seq<Opt>>): seq<Opt> {
    if mainOpts.Some? then mainOpts.value else []
  }

  /** demoLoad: add "assets", apply the options, then add the two default
      shader directories and log the start-up banner. */
  function Load(s: Settings, mainOpts: Option<seq<Opt>>, info: BuildInfo, program: string): Step {
    match Run(s.(dataDirs := s.dataDirs + ["assets"]), OptsOf(mainOpts), info, program)
    case Exit(s', status, out) => Exit(s', status, out)
    case Next(s') =>
      Next(s'.(shaderPaths := s'.shaderPaths + ["shaders", "IntenseLogic/shaders"],
               log := s'.log + StartupLog(info)))
  }

  /** The arguments of the options matching an entry, in command-line order. */
  function ArgsOf(opts: seq<Opt>, short: string, long: string): seq<string>
    decreases |opts|
  {
    if opts == [] then []
    else (if Named(opts[0], short, long) then [opts[0].arg] else []) + ArgsOf(opts[1..], short, long)
  }

  /** The argument of the last option matching an entry, if any. */
  function LastArg(opts: seq<Opt>, short: string, long: string): Option<string>
    decreases |opts|
  {
    if opts == [] then None
    else
      var later := LastArg(opts[1..], short, long);
      if later.Some? then later
      else if Named(opts[0], short, long) then Some(opts[0].arg)
      else None
  }

  /** How many options match an entry. */
  function Count(opts: seq<Opt>, short: string, long: string): nat
    decreases |opts|
  {
    if opts == [] then 0
    else (if Named(opts[0], short, long) then 1 else 0) + Count(opts[1..], short, long)
  }

  function Repeat(x: string, n: nat): seq<string>
    decreases n
  {
    if n == 0 then [] else [x] + Repeat(x, n - 1)
  }

  /** One pass for an option other than -h and -v: each field changes as
      that option's check says, and no other way. */
  lemma ApplyWithoutExit(s: Settings, o: Opt, info: BuildInfo, program: string)
    requires !Exits(o)
    ensures var r := ApplyOpt(s, o, info, program);
      && r.Next?
      && r.s.dataDirs == s.dataDirs + (if Named(o, "d", "data") then [o.arg] else [])
      && r.s.shaderPaths == s.shaderPaths + (if Named(o, "s", "shaders") then [o.arg] else [])
      && r.s.demoShader == (if Named(o, "f", "shader") then Some(o.arg) else s.demoShader)
      && r.s.fpeTrapping == (s.fpeTrapping || Named(o, "", "fpe"))
      && r.s.log == s.log + (if Named(o, "", "fpe") then [FpeMessage] else [])
  {
  }

  /** Without -h or -v the loop runs to the end, and data directories and
      shader paths gain every -d and -s argument in order. */
  lemma {:induction false} RunWithoutExit(s: Settings, opts: seq<Opt>, info: BuildInfo, program: string)
    requires forall j :: 0 <= j < |opts| ==> !Exits(opts[j])
    ensures Run(s, opts, info, program).Next?
    ensures Run(s, opts, info, program).s.dataDirs == s.dataDirs + ArgsOf(opts, "d", "data")
    ensures Run(s, opts, info, program).s.shaderPaths == s.shaderPaths + ArgsOf(opts, "s", "shaders")
    decreases |opts|
  {
    if opts != [] {
      var o := opts[0];
      ApplyWithoutExit(s, o, info, program);
      var s' := ApplyOpt(s, o, info, program).s;
      RunWithoutExit(s', opts[1..], info, program);
      Assoc(s.dataDirs, if Named(o, "d", "data") then [o.arg] else [], ArgsOf(opts[1..], "d", "data"));
      Assoc(s.shaderPaths, if Named(o, "s", "shaders") then [o.arg] else [], ArgsOf(opts[1..], "s", "shaders"));
    }
  }

  /** Without -h or -v, the last -f decides the shader; with none the shader
      is unchanged. */
  lemma {:induction false} RunLastShaderWins(s: Settings, opts: seq<Opt>, info: BuildInfo, program: string)
    requires forall j :: 0 <= j < |opts| ==> !Exits(opts[j])
    ensures Run(s, opts, info, program).Next?
    ensures Run(s, opts, info, program).s.demoShader
         == if LastArg(opts, "f", "shader").Some? then LastArg(opts, "f", "shader") else s.demoShader
    decreases |opts|
  {
    if opts != [] {
      var o := opts[0];
      ApplyWithoutExit(s, o, info, program);
      RunLastShaderWins(ApplyOpt(s, o, info, program).s, opts[1..], info, program);
    }
  }

  /** Without -h or -v, every --fpe turns trapping on and logs one line. */
  lemma {:induction false} RunFpe(s: Settings, opts: seq<Opt>, info: BuildInfo, program: string)
    requires forall j :: 0 <= j < |opts| ==> !Exits(opts[j])
    ensures Run(s, opts, info, program).Next?
    ensures Run(s, opts, info, program).s.fpeTrapping == (s.fpeTrapping || Count(opts, "", "fpe") > 0)
    ensures Run(s, opts, info, program).s.log == s.log + Repeat(FpeMessage, Count(opts, "", "fpe"))
    decreases |opts|
  {
    if opts != [] {
      var o := opts[0];
      ApplyWithoutExit(s, o, info, program);
      RunFpe(ApplyOpt(s, o, info, program).s, opts[1..], info, program);
      Assoc(s.log, if Named(o, "", "fpe") then [FpeMessage] else [], Repeat(FpeMessage, Count(opts[1..], "", "fpe")));
    }
  }

  /** The first -h or -v ends the loop with status 0 and its text. The
      settings are those the options before it produced; options after it
      are never looked at. */
  lemma {:induction false} RunStopsAtFirstExit(s: Settings, opts: seq<Opt>, k: nat, info: BuildInfo, program: string)
    requires k < |opts| && Exits(opts[k])
    requires forall j :: 0 <= j < k ==> !Exits(opts[j])
    ensures Run(s, opts[..k], info, program).Next?
    ensures Run(s, opts, info, program)
         == Exit(Run(s, opts[..k], info, program).s, 0,
                 if Named(opts[k], "h", "help") then HelpText(info, program) else VersionText(info))
    decreases k
  {
    if k == 0 {
      assert opts[..k] == [];
    } else {
      var s' := ApplyOpt(s, opts[0], info, program).s;
      RunStopsAtFirstExit(s', opts[1..], k - 1, info, program);
      assert opts[..k][1..] == opts[1..][..k - 1];
      assert opts[..k][0] == opts[0];
    }
  }

  /** A run of demoLoad without -h or -v: "assets" then the -d directories;
      the -s directories then "shaders" and "IntenseLogic/shaders"; the last
      -f shader; trapping when some --fpe was given; one log line per --fpe,
      then the start-up banner. */
  lemma LoadWithoutExit(s: Settings, mainOpts: Option<seq<Opt>>, info: BuildInfo, program: string)
    requires forall j :: 0 <= j < |OptsOf(mainOpts)| ==> !Exits(OptsOf(mainOpts)[j])
    ensures var r := Load(s, mainOpts, info, program);
      var opts := OptsOf(mainOpts);
      && r.Next?
      && r.s.dataDirs == s.dataDirs + ["assets"] + ArgsOf(opts, "d", "data")
      && r.s.shaderPaths == s.shaderPaths + ArgsOf(opts, "s", "shaders") + ["shaders", "IntenseLogic/shaders"]
      && r.s.demoShader == (if LastArg(opts, "f", "shader").Some? then LastArg(opts, "f", "shader") else s.demoShader)
      && r.s.fpeTrapping == (s.fpeTrapping || Count(opts, "", "fpe") > 0)
      && r.s.log == s.log + Repeat(FpeMessage, Count(opts, "", "fpe")) + StartupLog(info)
  {
    var s0 := s.(dataDirs := s.dataDirs + ["assets"]);
    RunWithoutExit(s0, OptsOf(mainOpts), info, program);
    RunLastShaderWins(s0, OptsOf(mainOpts), info, program);
    RunFpe(s0, OptsOf(mainOpts), info, program);
  }

  /** A run of demoLoad whose options include -h or -v: it exits with status
      0 at the first of them, having added "assets" and the -d and -s
      directories before it, and without the default shader directories or
      the banner. */
  lemma LoadExitsAtFirst(s: Settings, mainOpts: Option<seq<Opt>>, k: nat, info: BuildInfo, program: string)
    requires k < |OptsOf(mainOpts)| && Exits(OptsOf(mainOpts)[k])
    requires forall j :: 0 <= j < k ==> !Exits(OptsOf(mainOpts)[j])
    ensures var r := Load(s, mainOpts, info, program);
      var before := OptsOf(mainOpts)[..k];
      && r.Exit? && r.status == 0
      && r.output == (if Named(OptsOf(mainOpts)[k], "h", "help") then HelpText(info, program) else VersionText(info))
      && r.s.dataDirs == s.dataDirs + ["assets"] + ArgsOf(before, "d", "data")
      && r.s.shaderPaths == s.shaderPaths + ArgsOf(before, "s", "shaders")
  {
    var opts := OptsOf(mainOpts);
    var s0 := s.(dataDirs := s.dataDirs + ["assets"]);
    RunStopsAtFirstExit(s0, opts, k, info, program);
    RunWithoutExit(s0, opts[..k], info, program);
  }

  /** The loop from position `i` is one pass, then the loop from `i + 1`. */
  lemma RunStep(s: Settings, opts: seq<Opt>, i: nat, info: BuildInfo, program: string)
    requires i < |opts|
    ensures Run(s, opts[i..], info, program)
         == match ApplyOpt(s, opts[i], info, program)
            case Exit(s', status, out) => Exit(s', status, out)
            case Next(s') => Run(s', opts[i + 1..], info, program)
  {
    assert opts[i..][0] == opts[i] && opts[i..][1..] == opts[i + 1..];
  }

  // -----------------------------------------------------------------------
  // The demo's global state.

  class Globals {
    /** Directories of the demo file system, searched in order. */
    var dataDirs: seq<string>
    /** The shader search path. */
    var shaderPaths: seq<string>
    var demoShader: Option<string>
    var fpeTrapping: bool
    var log: seq<string>

    function Current(): Settings
      reads this
    {
      Settings(dataDirs, shaderPaths, demoShader, fpeTrapping, log)
    }

    constructor ()
      ensures Current() == Settings([], [], None, false, [])
    {
      dataDirs, shaderPaths, demoShader, fpeTrapping, log := [], [], None, false, [];
    }

    /** One pass of the option loop for option `o`. `stop` reports that the
        process exits with `status`, having printed `output`; `-f` ends the
        pass early, skipping the `--fpe` check. */
    method ApplyOption(o: Opt, info: BuildInfo, program: string)
      returns (stop: bool, status: int, output: string)
      modifies this
      ensures var r := ApplyOpt(old(Current()), o, info, program);
        && Current() == r.s
        && (stop <==> r.Exit?)
        && (stop ==> status == r.status && output == r.output)
    {
      stop, status, output := false, 0, "";
      if !Exits(o) {
        ApplyWithoutExit(Current(), o, info, program);
      }
      if Named(o, "h", "help") {
        output := WriteHelp(info, program);
        stop := true;
        return;
      }
      if Named(o, "v", "version") {
        output := VersionText(info);
        stop := true;
        return;
      }
      if Named(o, "d", "data") {
        dataDirs := dataDirs + [o.arg];
      }
      if Named(o, "s", "shaders") {
        shaderPaths := shaderPaths + [o.arg];
      }
      if Named(o, "f", "shader") {
        demoShader := Some(o.arg);
        return;
      }
      if Named(o, "", "fpe") {
        fpeTrapping := true;
        log := log + [FpeMessage];
      }
    }

    /** demoLoad. `exited` reports that the process ends here with `status`,
        having printed `output`. */
    method DemoLoad(mainOpts: Option<seq<Opt>>, info: BuildInfo, program: string)
      returns (exited: bool, status: int, output: string)
      modifies this
      ensures var r := Load(old(Current()), mainOpts, info, program);
        && Current() == r.s
        && (exited <==> r.Exit?)
        && (exited ==> status == r.status && output == r.output)
    {
      exited, status, output := false, 0, "";
      dataDirs := dataDirs + ["assets"];
      var opts := OptsOf(mainOpts);
      ghost var goal := Run(Current(), opts, info, program);
      assert goal == Run(old(Current()).(dataDirs := old(dataDirs) + ["assets"]), opts, info, program);
      var i := 0;
      while i < |opts|
        invariant 0 <= i <= |opts|
        invariant Run(Current(), opts[i..], info, program) == goal
      {
        RunStep(Current(), opts, i, info, program);
        exited, status, output := ApplyOption(opts[i], info, program);
        if exited {
          return;
        }
        i := i + 1;
      }
      shaderPaths := shaderPaths + ["shaders"];
      shaderPaths := shaderPaths + ["IntenseLogic/shaders"];
      log := log + StartupLog(info);
    }
  }
}
