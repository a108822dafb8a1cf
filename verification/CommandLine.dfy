/**
 The two readers of a daemon's command line: the parser of the program's own
 arguments, and the scanner that recognises a running daemon by its arguments.
 */
module CommandLine {
  import opened IpKeys

  const DEFAULT_CONFIG_FILE: string := "addrsyncd.toml"
  const DEFAULT_WORK_DIR: string := "."

  predicate IsConfigFlag(a: string) {
    a == "-c" || a == "--config"
  }

  predicate IsDirFlag(a: string) {
    a == "-d" || a == "--work-dir"
  }

  predicate IsHelpFlag(a: string) {
    a == "-h" || a == "--help"
  }

  predicate IsVersionFlag(a: string) {
    a == "-v" || a == "--version"
  }

  // -------------------------------------------------------------------
  // The grammar of run commands
  // -------------------------------------------------------------------

  /** A global option with its value, spelled short or long. */
  datatype GlobalOpt = WorkDir(long: bool, value: string) | Config(long: bool, value: string)

  function Spell(o: GlobalOpt): seq<string> {
    match o
    case WorkDir(long, value) => [if long then "--work-dir" else "-d", value]
    case Config(long, value) => [if long then "--config" else "-c", value]
  }

  function SpellAll(opts: seq<GlobalOpt>): seq<string> {
    if opts == [] then [] else Spell(opts[0]) + SpellAll(opts[1..])
  }

  /** The last work directory given wins; `dir` stands when none is. */
  function LastDir(opts: seq<GlobalOpt>, dir: string): string {
    if opts == [] then dir else LastDir(opts[1..], if opts[0].WorkDir? then opts[0].value else dir)
  }

  function Daemons(n: nat): seq<string> {
    seq(n, i => "--daemon")
  }

  /** The arguments after the program name that run a daemon with these options and `n` daemon flags. */
  function RunLine(opts: seq<GlobalOpt>, n: nat): seq<string> {
    SpellAll(opts) + ["run"] + Daemons(n)
  }

  ghost predicate IsRun(tail: seq<string>, dir: string, result: string) {
    exists opts, n :: tail == RunLine(opts, n) && LastDir(opts, dir) == result
  }

  // -------------------------------------------------------------------
  // The scanner
  // -------------------------------------------------------------------

  predicate AllDaemon(args: seq<string>) {
    forall i :: 0 <= i < |args| ==> args[i] == "--daemon"
  }

  function ScanFrom(args: seq<string>, i: nat, dir: string): Option<string>
    decreases |args| - i
  {
    if i >= |args| then None
    else if IsDirFlag(args[i]) then if i + 1 >= |args| then None else ScanFrom(args, i + 2, args[i + 1])
    else if IsConfigFlag(args[i]) then if i + 1 >= |args| then None else ScanFrom(args, i + 2, dir)
    else if args[i] == "run" && AllDaemon(args[i + 1..]) then Some(dir)
    else None
  }

  /** The work directory as written, of a command line that runs a daemon. */
  method ScanRunWorkDir(args: seq<string>) returns (r: Option<string>)
    ensures r == ScanFrom(args, 1, DEFAULT_WORK_DIR)
  {
    var idx, dir, sawRun := 1, DEFAULT_WORK_DIR, false;
    while idx < |args|
      invariant ScanFrom(args, idx, dir) == ScanFrom(args, 1, DEFAULT_WORK_DIR) && !sawRun && idx >= 1
      decreases |args| - idx
    {
      if IsDirFlag(args[idx]) {
        idx := idx + 1;
        if idx >= |args| {
          return None;
        }
        dir := args[idx];
      } else if IsConfigFlag(args[idx]) {
        idx := idx + 1;
        if idx >= |args| {
          return None;
        }
      } else if args[idx] == "run" {
        sawRun := true;
        break;
      } else {
        return None;
      }
      idx := idx + 1;
    }
    if !sawRun {
      return None;
    }
    ghost var at := idx;
    idx := idx + 1;
    while idx < |args|
      invariant at < idx <= |args|
      invariant forall j :: at < j < idx ==> args[j] == "--daemon"
    {
      if args[idx] != "--daemon" {
        assert args[at + 1..][idx - at - 1] == args[idx];
        return None;
      }
      idx := idx + 1;
    }
    r := Some(dir);
  }

  lemma ScanOfRunLine(args: seq<string>, i: nat, opts: seq<GlobalOpt>, n: nat, dir: string)
    requires i <= |args| && args[i..] == RunLine(opts, n)
    ensures ScanFrom(args, i, dir) == Some(LastDir(opts, dir))
    decreases |opts|
  {
    var tail := args[i..];
    if opts == [] {
      assert tail[0] == args[i] == "run";
      assert args[i + 1..] == tail[1..] == Daemons(n);
    } else {
      var first := Spell(opts[0]);
      assert tail == first + RunLine(opts[1..], n);
      assert args[i] == tail[0] == first[0] && args[i + 1] == tail[1] == first[1];
      assert args[i + 2..] == tail[2..] == RunLine(opts[1..], n);
      ScanOfRunLine(args, i + 2, opts[1..], n, if opts[0].WorkDir? then opts[0].value else dir);
    }
  }

  lemma {:induction false} ScannedIsRunLine(args: seq<string>, i: nat, dir: string) returns (opts: seq<GlobalOpt>, n: nat)
    requires i <= |args| && ScanFrom(args, i, dir).Some?
    ensures args[i..] == RunLine(opts, n) && LastDir(opts, dir) == ScanFrom(args, i, dir).value
    decreases |args| - i
  {
    if args[i] == "run" {
      opts, n := [], |args| - i - 1;
      assert args[i..] == ["run"] + args[i + 1..];
      assert args[i + 1..] == Daemons(n);
    } else {
      var o := if IsDirFlag(args[i]) then WorkDir(args[i] == "--work-dir", args[i + 1])
               else Config(args[i] == "--config", args[i + 1]);
      var rest, m := ScannedIsRunLine(args, i + 2, if o.WorkDir? then o.value else dir);
      opts, n := [o] + rest, m;
      assert args[i..] == Spell(o) + args[i + 2..];
      assert opts[1..] == rest;
    }
  }

  /** The scanner recognises exactly the run commands of the grammar, with the last work directory given. */
  lemma ScannerIsExact(args: seq<string>, w: string)
    requires args != []
    ensures ScanFrom(args, 1, DEFAULT_WORK_DIR) == Some(w) <==> IsRun(args[1..], DEFAULT_WORK_DIR, w)
  {
    if ScanFrom(args, 1, DEFAULT_WORK_DIR) == Some(w) {
      var opts, n := ScannedIsRunLine(args, 1, DEFAULT_WORK_DIR);
    }
    if IsRun(args[1..], DEFAULT_WORK_DIR, w) {
      var opts, n :| args[1..] == RunLine(opts, n) && LastDir(opts, DEFAULT_WORK_DIR) == w;
      ScanOfRunLine(args, 1, opts, n, DEFAULT_WORK_DIR);
    }
  }

  // -------------------------------------------------------------------
  // The parser
  // -------------------------------------------------------------------

  datatype Command = Run(daemon: bool) | Stop | Resync | Status | Cleanup(tracked: bool) | Pbr

  datatype Cli = Cli(config: string, workDir: string, command: Command)

  /** A command line, an error, or help or version text after which the program exits. */
  datatype Outcome<T> = Ok(value: T) | Failed | Exit

  function RunFlags(args: seq<string>, i: nat, daemon: bool): Outcome<Command>
    decreases |args| - i
  {
    if i >= |args| then Ok(Run(daemon))
    else if args[i] == "--daemon" then RunFlags(args, i + 1, true)
    else if IsHelpFlag(args[i]) then Exit
    else Failed
  }

  function CleanupFlags(args: seq<string>, i: nat, tracked: bool): Outcome<Command>
    decreases |args| - i
  {
    if i >= |args| then Ok(Cleanup(tracked))
    else if args[i] == "--mode" then
      if i + 1 >= |args| then Failed
      else if args[i + 1] == "tracked" then CleanupFlags(args, i + 2, true)
      else if args[i + 1] == "dump" then CleanupFlags(args, i + 2, false)
      else Failed
    else if IsHelpFlag(args[i]) then Exit
    else Failed
  }

  /** The subcommand at `i`; `pbr` is how its option list turns out, with the request itself left aside. */
  function Subcommand(args: seq<string>, i: nat, pbr: Outcome<()>): Outcome<Command> {
    if i >= |args| then Failed
    else if args[i] == "run" then RunFlags(args, i + 1, false)
    else if args[i] == "cleanup" then CleanupFlags(args, i + 1, false)
    else if args[i] == "pbr" then (match pbr case Ok(_) => Ok(Pbr) case Failed => Failed case Exit => Exit)
    else if args[i] == "stop" then if i + 1 < |args| then Failed else Ok(Stop)
    else if args[i] == "resync" then if i + 1 < |args| then Failed else Ok(Resync)
    else if args[i] == "status" then if i + 1 < |args| then Failed else Ok(Status)
    else Failed
  }

  function Finished(config: string, dir: string, c: Outcome<Command>): Outcome<Cli> {
    match c
    case Ok(command) => Ok(Cli(config, dir, command))
    case Failed => Failed
    case Exit => Exit
  }

  function ParseFrom(args: seq<string>, i: nat, config: string, dir: string, pbr: Outcome<()>): Outcome<Cli>
    decreases |args| - i
  {
    if i < |args| && IsConfigFlag(args[i]) then
      if i + 1 >= |args| then Failed else ParseFrom(args, i + 2, args[i + 1], dir, pbr)
    else if i < |args| && IsDirFlag(args[i]) then
      if i + 1 >= |args| then Failed else ParseFrom(args, i + 2, config, args[i + 1], pbr)
    else if i < |args| && (IsHelpFlag(args[i]) || IsVersionFlag(args[i])) then Exit
    else Finished(config, dir, Subcommand(args, i, pbr))
  }

  method ParseRunCommand(args: seq<string>, start: nat) returns (r: Outcome<Command>)
    ensures r == RunFlags(args, start, false)
  {
    var daemon, i := false, start;
    while i < |args|
      invariant RunFlags(args, i, daemon) == RunFlags(args, start, false)
      decreases |args| - i
    {
      if args[i] == "--daemon" {
        daemon := true;
      } else if IsHelpFlag(args[i]) {
        return Exit;
      } else {
        return Failed;
      }
      i := i + 1;
    }
    r := Ok(Run(daemon));
  }

  method ParseCleanupCommand(args: seq<string>, start: nat) returns (r: Outcome<Command>)
    ensures r == CleanupFlags(args, start, false)
  {
    var tracked, i := false, start;
    while i < |args|
      invariant CleanupFlags(args, i, tracked) == CleanupFlags(args, start, false)
      decreases |args| - i
    {
      if args[i] == "--mode" {
        i := i + 1;
        if i >= |args| {
          return Failed;
        }
        if args[i] == "tracked" {
          tracked := true;
        } else if args[i] == "dump" {
          tracked := false;
        } else {
          return Failed;
        }
      } else if IsHelpFlag(args[i]) {
        return Exit;
      } else {
        return Failed;
      }
      i := i + 1;
    }
    r := Ok(Cleanup(tracked));
  }

  method ParseArgs(args: seq<string>, pbr: Outcome<()>) returns (r: Outcome<Cli>)
    ensures r == ParseFrom(args, 1, DEFAULT_CONFIG_FILE, DEFAULT_WORK_DIR, pbr)
  {
    var config, dir, i := DEFAULT_CONFIG_FILE, DEFAULT_WORK_DIR, 1;
    ghost var whole := ParseFrom(args, 1, DEFAULT_CONFIG_FILE, DEFAULT_WORK_DIR, pbr);
    while i < |args|
      invariant i >= 1 && ParseFrom(args, i, config, dir, pbr) == whole
      invariant i >= |args| ==> whole == Failed
      decreases |args| - i
    {
      if IsConfigFlag(args[i]) {
        i := i + 1;
        if i >= |args| {
          return Failed;
        }
        config := args[i];
        i := i + 1;
      } else if IsDirFlag(args[i]) {
        i := i + 1;
        if i >= |args| {
          return Failed;
        }
        dir := args[i];
        i := i + 1;
      } else if IsHelpFlag(args[i]) || IsVersionFlag(args[i]) {
        return Exit;
      } else {
        break;
      }
    }
    if i >= |args| {
      return Failed;
    }
    var sub := args[i];
    i := i + 1;
    var command: Outcome<Command> := Failed;
    if sub == "run" {
      command := ParseRunCommand(args, i);
    } else if sub == "cleanup" {
      command := ParseCleanupCommand(args, i);
    } else if sub == "pbr" {
      command := match pbr case Ok(_) => Ok(Pbr) case Failed => Failed case Exit => Exit;
    } else if sub == "stop" || sub == "resync" || sub == "status" {
      if i >= |args| {
        command := Ok(if sub == "stop" then Stop else if sub == "resync" then Resync else Status);
      }
    }
    r := Finished(config, dir, command);
  }

  // -------------------------------------------------------------------
  // What the parser accepts, for every command
  // -------------------------------------------------------------------

  /** The last configuration file given wins; `config` stands when none is. */
  function LastConfig(opts: seq<GlobalOpt>, config: string): string {
    if opts == [] then config else LastConfig(opts[1..], if opts[0].Config? then opts[0].value else config)
  }

  /** The cleanup modes as written: `true` for tracked, `false` for dump. */
  function SpellModes(modes: seq<bool>): seq<string> {
    if modes == [] then [] else ["--mode", if modes[0] then "tracked" else "dump"] + SpellModes(modes[1..])
  }

  /** The last mode decides; `tracked` stands when none is given. */
  function LastMode(modes: seq<bool>, tracked: bool): bool {
    if modes == [] then tracked else modes[|modes| - 1]
  }

  ghost predicate AreDaemonFlags(tail: seq<string>, daemon: bool) {
    exists n: nat :: tail == Daemons(n) && daemon == (n > 0)
  }

  ghost predicate AreModes(tail: seq<string>, tracked: bool) {
    exists modes :: tail == SpellModes(modes) && tracked == LastMode(modes, false)
  }

  /** What stands after the options when the command is `c`. */
  ghost predicate IsCommand(rest: seq<string>, pbr: Outcome<()>, c: Command) {
    match c
    case Stop => rest == ["stop"]
    case Resync => rest == ["resync"]
    case Status => rest == ["status"]
    case Run(daemon) => rest != [] && rest[0] == "run" && AreDaemonFlags(rest[1..], daemon)
    case Cleanup(tracked) => rest != [] && rest[0] == "cleanup" && AreModes(rest[1..], tracked)
    case Pbr => rest != [] && rest[0] == "pbr" && pbr.Ok?
  }

  predicate HelpFollows(tail: seq<string>, before: seq<string>) {
    before < tail && IsHelpFlag(tail[|before|])
  }

  ghost predicate DaemonsThenHelp(tail: seq<string>) {
    exists n: nat :: HelpFollows(tail, Daemons(n))
  }

  ghost predicate ModesThenHelp(tail: seq<string>) {
    exists modes :: HelpFollows(tail, SpellModes(modes))
  }

  /** What stands after the options when the program only tells about itself. */
  ghost predicate AsksForText(rest: seq<string>, pbr: Outcome<()>) {
    && rest != []
    && (|| IsHelpFlag(rest[0])
        || IsVersionFlag(rest[0])
        || (rest[0] == "run" && DaemonsThenHelp(rest[1..]))
        || (rest[0] == "cleanup" && ModesThenHelp(rest[1..]))
        || (rest[0] == "pbr" && pbr.Exit?))
  }

  lemma {:induction false} RunFlagsOfDaemons(args: seq<string>, i: nat, n: nat, daemon: bool)
    requires i <= |args| && Daemons(n) <= args[i..]
    ensures RunFlags(args, i, daemon) == RunFlags(args, i + n, daemon || n > 0)
    decreases n
  {
    if n > 0 {
      assert args[i] == args[i..][0] == Daemons(n)[0];
      assert args[i + 1..] == args[i..][1..] && Daemons(n)[1..] == Daemons(n - 1);
      RunFlagsOfDaemons(args, i + 1, n - 1, true);
    }
  }

  lemma {:induction false} CleanupFlagsOfModes(args: seq<string>, i: nat, modes: seq<bool>, tracked: bool)
    requires i <= |args| && SpellModes(modes) <= args[i..]
    ensures |SpellModes(modes)| == 2 * |modes|
    ensures CleanupFlags(args, i, tracked) == CleanupFlags(args, i + 2 * |modes|, LastMode(modes, tracked))
    decreases |modes|
  {
    if modes != [] {
      var spelt, tail := SpellModes(modes), args[i..];
      assert args[i] == tail[0] == spelt[0] && args[i + 1] == tail[1] == spelt[1];
      assert args[i + 2..] == tail[2..] && spelt[2..] == SpellModes(modes[1..]);
      CleanupFlagsOfModes(args, i + 2, modes[1..], modes[0]);
    }
  }

  /** The daemon flags at the head of a list, as many as there are. */
  lemma {:induction false} LeadingDaemons(args: seq<string>, i: nat) returns (n: nat)
    requires i <= |args|
    ensures Daemons(n) <= args[i..] && (i + n < |args| ==> args[i + n] != "--daemon")
    decreases |args| - i
  {
    n := 0;
    if i < |args| && args[i] == "--daemon" {
      n := LeadingDaemons(args, i + 1);
      n := n + 1;
      assert args[i..] == ["--daemon"] + args[i + 1..];
      assert Daemons(n) == ["--daemon"] + Daemons(n - 1);
    }
  }

  predicate ModeAt(args: seq<string>, i: nat) {
    i + 1 < |args| && args[i] == "--mode" && (args[i + 1] == "tracked" || args[i + 1] == "dump")
  }

  /** The well-formed modes at the head of a list, as many as there are. */
  lemma {:induction false} LeadingModes(args: seq<string>, i: nat) returns (modes: seq<bool>)
    requires i <= |args|
    ensures |SpellModes(modes)| == 2 * |modes|
    ensures SpellModes(modes) <= args[i..] && !ModeAt(args, i + 2 * |modes|)
    decreases |args| - i
  {
    modes := [];
    if ModeAt(args, i) {
      var more := LeadingModes(args, i + 2);
      modes := [args[i + 1] == "tracked"] + more;
      assert modes[1..] == more;
      assert args[i..] == [args[i], args[i + 1]] + args[i + 2..];
    }
  }

  lemma {:induction false} RunFlagsAreExact(args: seq<string>, i: nat, c: Command)
    requires i <= |args|
    ensures RunFlags(args, i, false) == Ok(c) <==> c.Run? && AreDaemonFlags(args[i..], c.daemon)
    ensures RunFlags(args, i, false) == Exit <==> DaemonsThenHelp(args[i..])
  {
    var n := LeadingDaemons(args, i);
    RunFlagsOfDaemons(args, i, n, false);
    if i + n < |args| {
      assert args[i + n] == args[i..][n];
    } else {
      assert args[i..] == Daemons(n);
    }
    forall m: nat | Daemons(m) <= args[i..]
      ensures RunFlags(args, i, false) == RunFlags(args, i + m, m > 0) && (m < |args[i..]| ==> args[i + m] == args[i..][m])
    {
      RunFlagsOfDaemons(args, i, m, false);
    }
  }

  /** The outcome once the modes at the head are read. */
  lemma {:induction false} CleanupFlagsAfter(args: seq<string>, i: nat, modes: seq<bool>)
    requires i <= |args| && SpellModes(modes) <= args[i..]
    ensures args[i..] == SpellModes(modes) ==> CleanupFlags(args, i, false) == Ok(Cleanup(LastMode(modes, false)))
    ensures HelpFollows(args[i..], SpellModes(modes)) ==> CleanupFlags(args, i, false) == Exit
    ensures args[i..] == SpellModes(modes) || HelpFollows(args[i..], SpellModes(modes)) || ModeAt(args, i + 2 * |modes|)
            || CleanupFlags(args, i, false) == Failed
  {
    CleanupFlagsOfModes(args, i, modes, false);
    var at := i + 2 * |modes|;
    if at < |args| {
      assert args[at] == args[i..][2 * |modes|];
    } else {
      assert args[i..] == SpellModes(modes);
    }
  }

  lemma {:induction false} CleanupFlagsAreExact(args: seq<string>, i: nat, c: Command)
    requires i <= |args|
    ensures CleanupFlags(args, i, false) == Ok(c) <==> c.Cleanup? && AreModes(args[i..], c.tracked)
    ensures CleanupFlags(args, i, false) == Exit <==> ModesThenHelp(args[i..])
  {
    var modes := LeadingModes(args, i);
    CleanupFlagsAfter(args, i, modes);
    if c.Cleanup? && AreModes(args[i..], c.tracked) {
      var ms :| args[i..] == SpellModes(ms) && c.tracked == LastMode(ms, false);
      CleanupFlagsAfter(args, i, ms);
    }
    if ModesThenHelp(args[i..]) {
      var ms :| HelpFollows(args[i..], SpellModes(ms));
      CleanupFlagsAfter(args, i, ms);
    }
  }

  lemma {:induction false} SubcommandIsExact(args: seq<string>, i: nat, pbr: Outcome<()>, c: Command)
    requires i < |args|
    ensures Subcommand(args, i, pbr) == Ok(c) <==> IsCommand(args[i..], pbr, c)
    ensures !IsHelpFlag(args[i]) && !IsVersionFlag(args[i]) ==>
              (Subcommand(args, i, pbr) == Exit <==> AsksForText(args[i..], pbr))
  {
    var rest := args[i..];
    assert rest == [args[i]] + args[i + 1..] && rest[0] == args[i] && rest[1..] == args[i + 1..];
    if args[i] == "run" {
      RunFlagsAreExact(args, i + 1, c);
    } else if args[i] == "cleanup" {
      CleanupFlagsAreExact(args, i + 1, c);
    }
  }

  lemma OptionFirst(args: seq<string>, i: nat, opts: seq<GlobalOpt>)
    requires i <= |args| && opts != [] && SpellAll(opts) <= args[i..]
    ensures i + 2 <= |args| && args[i + 1] == opts[0].value && SpellAll(opts[1..]) <= args[i + 2..]
    ensures IsConfigFlag(args[i]) == opts[0].Config? && IsDirFlag(args[i]) == opts[0].WorkDir?
    ensures |SpellAll(opts)| == 2 + |SpellAll(opts[1..])|
  {
    var spelt, tail := SpellAll(opts), args[i..];
    assert args[i] == tail[0] == spelt[0] && args[i + 1] == tail[1] == spelt[1];
    assert args[i + 2..] == tail[2..] && spelt[2..] == SpellAll(opts[1..]);
  }

  /** Options are read one by one, and the last of each kind stands. */
  lemma {:induction false} ParsePastOptions(args: seq<string>, i: nat, opts: seq<GlobalOpt>, config: string, dir: string,
                                            pbr: Outcome<()>)
    requires i <= |args| && SpellAll(opts) <= args[i..]
    ensures |SpellAll(opts)| == 2 * |opts|
    ensures ParseFrom(args, i, config, dir, pbr)
            == ParseFrom(args, i + 2 * |opts|, LastConfig(opts, config), LastDir(opts, dir), pbr)
    decreases |opts|
  {
    if opts != [] {
      var o := opts[0];
      OptionFirst(args, i, opts);
      ParsePastOptions(args, i + 2, opts[1..], if o.Config? then o.value else config,
                       if o.WorkDir? then o.value else dir, pbr);
    }
  }

  predicate OptionAt(args: seq<string>, i: nat) {
    i + 1 < |args| && (IsConfigFlag(args[i]) || IsDirFlag(args[i]))
  }

  /** The options at the head of a list, as many as there are. */
  lemma {:induction false} LeadingOptions(args: seq<string>, i: nat) returns (opts: seq<GlobalOpt>)
    requires i <= |args|
    ensures |SpellAll(opts)| == 2 * |opts|
    ensures SpellAll(opts) <= args[i..] && !OptionAt(args, i + 2 * |opts|)
    decreases |args| - i
  {
    opts := [];
    if OptionAt(args, i) {
      var o := if IsDirFlag(args[i]) then WorkDir(args[i] == "--work-dir", args[i + 1])
               else Config(args[i] == "--config", args[i + 1]);
      var more := LeadingOptions(args, i + 2);
      opts := [o] + more;
      assert opts[1..] == more;
      assert args[i..] == Spell(o) + args[i + 2..];
    }
  }

  /** The outcome at the first word that is not an option with its value. */
  lemma {:induction false} ParseAtCommand(args: seq<string>, i: nat, config: string, dir: string, pbr: Outcome<()>, c: Cli)
    requires i <= |args| && !OptionAt(args, i)
    ensures ParseFrom(args, i, config, dir, pbr) == Ok(c)
            <==> IsCommand(args[i..], pbr, c.command) && c.config == config && c.workDir == dir
    ensures ParseFrom(args, i, config, dir, pbr) == Exit <==> AsksForText(args[i..], pbr)
  {
    if i < |args| {
      SubcommandIsExact(args, i, pbr, c.command);
      assert args[i..][0] == args[i];
    }
  }

  /** The tail is options, of which the last of each kind stand, and then a command. */
  ghost predicate IsCommandLine(tail: seq<string>, pbr: Outcome<()>, c: Cli) {
    exists opts, rest ::
      && tail == SpellAll(opts) + rest
      && IsCommand(rest, pbr, c.command)
      && c.config == LastConfig(opts, DEFAULT_CONFIG_FILE)
      && c.workDir == LastDir(opts, DEFAULT_WORK_DIR)
  }

  /** The tail is options and then a question for help or version. */
  ghost predicate IsQuestion(tail: seq<string>, pbr: Outcome<()>) {
    exists opts, rest :: tail == SpellAll(opts) + rest && AsksForText(rest, pbr)
  }

  lemma NoOptionFirst(rest: seq<string>, pbr: Outcome<()>, c: Command)
    requires IsCommand(rest, pbr, c) || AsksForText(rest, pbr)
    ensures !OptionAt(rest, 0)
  {
  }

  lemma {:induction false} ParseOfSplit(args: seq<string>, opts: seq<GlobalOpt>, rest: seq<string>, pbr: Outcome<()>, c: Cli)
    requires args != [] && args[1..] == SpellAll(opts) + rest && !OptionAt(rest, 0)
    ensures var r := ParseFrom(args, 1, DEFAULT_CONFIG_FILE, DEFAULT_WORK_DIR, pbr);
            && (r == Ok(c) <==> && IsCommand(rest, pbr, c.command) && c.config == LastConfig(opts, DEFAULT_CONFIG_FILE)
                                && c.workDir == LastDir(opts, DEFAULT_WORK_DIR))
            && (r == Exit <==> AsksForText(rest, pbr))
  {
    ParsePastOptions(args, 1, opts, DEFAULT_CONFIG_FILE, DEFAULT_WORK_DIR, pbr);
    var at := 1 + 2 * |opts|;
    assert args[at..] == args[1..][2 * |opts|..] == rest;
    ParseAtCommand(args, at, LastConfig(opts, DEFAULT_CONFIG_FILE), LastDir(opts, DEFAULT_WORK_DIR), pbr, c);
  }

  /**
   The parser accepts exactly the command lines of the grammar, each as the
   command it spells, and tells about itself exactly when asked; it refuses all
   others.
   */
  lemma {:induction false} ParserIsExact(args: seq<string>, pbr: Outcome<()>, c: Cli)
    requires args != []
    ensures var r := ParseFrom(args, 1, DEFAULT_CONFIG_FILE, DEFAULT_WORK_DIR, pbr);
            && (r == Ok(c) <==> IsCommandLine(args[1..], pbr, c))
            && (r == Exit <==> IsQuestion(args[1..], pbr))
  {
    var opts := LeadingOptions(args, 1);
    var rest := args[1..][2 * |opts|..];
    assert args[1..] == SpellAll(opts) + rest;
    ParseOfSplit(args, opts, rest, pbr, c);
    if IsCommandLine(args[1..], pbr, c) {
      var os, more :| args[1..] == SpellAll(os) + more && IsCommand(more, pbr, c.command)
        && c.config == LastConfig(os, DEFAULT_CONFIG_FILE) && c.workDir == LastDir(os, DEFAULT_WORK_DIR);
      NoOptionFirst(more, pbr, c.command);
      ParseOfSplit(args, os, more, pbr, c);
    }
    if IsQuestion(args[1..], pbr) {
      var os, more :| args[1..] == SpellAll(os) + more && AsksForText(more, pbr);
      NoOptionFirst(more, pbr, c.command);
      ParseOfSplit(args, os, more, pbr, c);
    }
  }

  predicate RunsIn(r: Outcome<Cli>, w: string) {
    r.Ok? && r.value.command.Run? && r.value.workDir == w
  }

  lemma {:induction false} RunFlagsIff(args: seq<string>, i: nat, daemon: bool)
    requires i <= |args|
    ensures RunFlags(args, i, daemon).Ok? <==> AllDaemon(args[i..])
    ensures RunFlags(args, i, daemon).Ok? ==> RunFlags(args, i, daemon).value.Run?
    decreases |args| - i
  {
    if i < |args| {
      RunFlagsIff(args, i + 1, true);
      assert args[i..] == [args[i]] + args[i + 1..];
    }
  }

  lemma {:induction false} CleanupIsNotRun(args: seq<string>, i: nat, tracked: bool)
    ensures CleanupFlags(args, i, tracked).Ok? ==> CleanupFlags(args, i, tracked).value.Cleanup?
    decreases |args| - i
  {
    if i + 1 < |args| {
      CleanupIsNotRun(args, i + 2, true);
      CleanupIsNotRun(args, i + 2, false);
    }
  }

  lemma {:induction false} AgreeFrom(args: seq<string>, i: nat, config: string, dir: string, pbr: Outcome<()>, w: string)
    ensures ScanFrom(args, i, dir) == Some(w) <==> RunsIn(ParseFrom(args, i, config, dir, pbr), w)
    decreases |args| - i
  {
    if i < |args| {
      if IsConfigFlag(args[i]) || IsDirFlag(args[i]) {
        if i + 1 < |args| {
          AgreeFrom(args, i + 2, if IsConfigFlag(args[i]) then args[i + 1] else config,
                    if IsConfigFlag(args[i]) then dir else args[i + 1], pbr, w);
        }
      } else {
        RunFlagsIff(args, i + 1, false);
        CleanupIsNotRun(args, i + 1, false);
      }
    }
  }

  /** For every argument vector the scanner finds work directory `w` exactly when the parser yields a run command there. */
  lemma ReadersAgree(args: seq<string>, pbr: Outcome<()>, w: string)
    ensures ScanFrom(args, 1, DEFAULT_WORK_DIR) == Some(w)
            <==> RunsIn(ParseFrom(args, 1, DEFAULT_CONFIG_FILE, DEFAULT_WORK_DIR, pbr), w)
  {
    AgreeFrom(args, 1, DEFAULT_CONFIG_FILE, DEFAULT_WORK_DIR, pbr, w);
  }

  // -------------------------------------------------------------------
  // The command line as the process table shows it
  // -------------------------------------------------------------------

  const NUL: char := '\0'

  /** Arguments as the kernel lists them: each followed by a zero byte. */
  function Listed(args: seq<string>): string {
    if args == [] then "" else args[0] + [NUL] + Listed(args[1..])
  }

  /** The non-empty parts between zero bytes, the first one continuing `part`. */
  function Parts(part: string, rest: string): seq<string>
    decreases |rest|
  {
    if rest == "" then if part == "" then [] else [part]
    else if rest[0] == NUL then (if part == "" then [] else [part]) + Parts("", rest[1..])
    else Parts(part + [rest[0]], rest[1..])
  }

  function NonEmpty(args: seq<string>): seq<string> {
    if args == [] then [] else (if args[0] == "" then [] else [args[0]]) + NonEmpty(args[1..])
  }

  method ReadCmdlineArgs(cmdline: string) returns (r: Option<seq<string>>)
    ensures r == if Parts("", cmdline) == [] then None else Some(Parts("", cmdline))
  {
    if cmdline == "" {
      return None;
    }
    var args: seq<string>, part, i := [], "", 0;
    while i < |cmdline|
      invariant 0 <= i <= |cmdline|
      invariant args + Parts(part, cmdline[i..]) == Parts("", cmdline)
    {
      assert cmdline[i..][1..] == cmdline[i + 1..];
      if cmdline[i] == NUL {
        if part != "" {
          args := args + [part];
        }
        part := "";
      } else {
        part := part + [cmdline[i]];
      }
      i := i + 1;
    }
    assert cmdline[i..] == "";
    if part != "" {
      args := args + [part];
    }
    assert args == Parts("", cmdline);
    r := if args == [] then None else Some(args);
  }

  lemma {:induction false} PartsOfWord(part: string, word: string, rest: string)
    requires NUL !in word
    ensures Parts(part, word + [NUL] + rest) == (if part + word == "" then [] else [part + word]) + Parts("", rest)
    decreases |word|
  {
    var s := word + [NUL] + rest;
    if word == "" {
      assert s[1..] == rest;
      assert part + word == part;
    } else {
      assert s[1..] == word[1..] + [NUL] + rest;
      PartsOfWord(part + [word[0]], word[1..], rest);
      assert part + [word[0]] + word[1..] == part + word;
    }
  }

  lemma {:induction false} PartsOfListed(args: seq<string>)
    requires forall i :: 0 <= i < |args| ==> NUL !in args[i]
    ensures Parts("", Listed(args)) == NonEmpty(args)
  {
    if args != [] {
      PartsOfListed(args[1..]);
      PartsOfWord("", args[0], Listed(args[1..]));
      assert "" + args[0] == args[0];
    }
  }

  lemma {:induction false} NonEmptyIff(args: seq<string>)
    ensures |NonEmpty(args)| <= |args|
    ensures NonEmpty(args) == args <==> "" !in args
  {
    if args != [] {
      NonEmptyIff(args[1..]);
      if args[0] != "" {
        assert args == [args[0]] + args[1..];
      }
    }
  }

  /** The process table gives the argument vector back exactly when no argument is empty. */
  lemma CmdlineRoundTripIff(args: seq<string>)
    requires forall i :: 0 <= i < |args| ==> NUL !in args[i]
    ensures Parts("", Listed(args)) == args <==> "" !in args
  {
    PartsOfListed(args);
    NonEmptyIff(args);
  }

  /** The position of the last slash, or the length if there is none. */
  function LastSlash(path: string): (i: nat)
    ensures i <= |path|
    ensures i < |path| ==> path[i] == '/'
    ensures forall j :: 0 <= j < |path| && (i == |path| || j > i) ==> path[j] != '/'
  {
    if path == "" then 0
    else
      var n := |path| - 1;
      if path[n] == '/' then n
      else
        var i := LastSlash(path[..n]);
        if i == n then |path| else i
  }

  /** The last component of a path, unless it is `..` or there is none. */
  function FileName(path: string): Option<string>
    decreases |path|
  {
    var i := LastSlash(path);
    var last := if i == |path| then path else path[i + 1..];
    if last != "" && last != "." then if last == ".." then None else Some(last)
    else if i == |path| then None
    else FileName(path[..i])
  }

  /** A name that can stand for a file: one path component, and none that is skipped or leads up. */
  predicate IsName(name: string) {
    '/' !in name && name != "" && name != "." && name != ".."
  }

  /** A path with slashes behind it, each with or without a dot. */
  function Trailed(path: string, dots: seq<bool>): string {
    if dots == [] then path
    else Trailed(path, dots[..|dots| - 1]) + "/" + if dots[|dots| - 1] then "." else ""
  }

  ghost predicate EndsIn(path: string, name: string) {
    exists dir: string, dots :: path == Trailed(dir + name, dots) && (dir == "" || dir[|dir| - 1] == '/')
  }

  lemma LastSlashIs(path: string, head: string, last: string)
    requires path == head + "/" + last && '/' !in last
    ensures LastSlash(path) == |head| && path[|head| + 1..] == last && path[..|head|] == head
  {
    assert path[|head|] == '/';
    assert forall j :: |head| < j < |path| ==> path[j] == last[j - |head| - 1];
  }

  lemma FileNameBare(dir: string, name: string)
    requires IsName(name) && (dir == "" || dir[|dir| - 1] == '/')
    ensures FileName(dir + name) == Some(name)
  {
    var path := dir + name;
    if dir == "" {
      assert path == name;
      assert LastSlash(name) == |name|;
    } else {
      assert path == dir[..|dir| - 1] + "/" + name;
      LastSlashIs(path, dir[..|dir| - 1], name);
    }
  }

  lemma FileNameSkips(head: string, last: string)
    requires last == "" || last == "."
    ensures FileName(head + "/" + last) == FileName(head)
  {
    LastSlashIs(head + "/" + last, head, last);
  }

  lemma {:induction false} FileNameTrailed(path: string, dots: seq<bool>)
    ensures FileName(Trailed(path, dots)) == FileName(path)
    decreases |dots|
  {
    if dots != [] {
      var n := |dots| - 1;
      FileNameTrailed(path, dots[..n]);
      FileNameSkips(Trailed(path, dots[..n]), if dots[n] then "." else "");
    }
  }

  lemma EndsInFurther(head: string, name: string, last: string)
    requires EndsIn(head, name) && (last == "" || last == ".")
    ensures EndsIn(head + "/" + last, name)
  {
    var dir: string, dots :| head == Trailed(dir + name, dots) && (dir == "" || dir[|dir| - 1] == '/');
    var more := dots + [last == "."];
    assert more[..|dots|] == dots;
    assert head + "/" + last == Trailed(dir + name, more);
  }

  lemma {:induction false} NameOfFile(path: string)
    requires FileName(path).Some?
    ensures IsName(FileName(path).value) && EndsIn(path, FileName(path).value)
    decreases |path|
  {
    var i := LastSlash(path);
    if i == |path| {
      assert path == Trailed("" + path, []);
    } else {
      var last := path[i + 1..];
      assert path == path[..i] + "/" + last;
      if last != "" && last != "." {
        assert path == Trailed(path[..i + 1] + last, []);
      } else {
        NameOfFile(path[..i]);
        EndsInFurther(path[..i], FileName(path).value, last);
      }
    }
  }

  /** The file name is the last component of the path once empty and single-dot components at the end are left aside. */
  lemma FileNameIff(path: string, name: string)
    ensures FileName(path) == Some(name) <==> IsName(name) && EndsIn(path, name)
  {
    if FileName(path) == Some(name) {
      NameOfFile(path);
    }
    if IsName(name) && EndsIn(path, name) {
      var dir: string, dots :| path == Trailed(dir + name, dots) && (dir == "" || dir[|dir| - 1] == '/');
      FileNameBare(dir, name);
      FileNameTrailed(dir + name, dots);
    }
  }

  predicate IsAddrsyncdArgv0(argv0: string) {
    var name := FileName(argv0);
    name.Some? && (name.value == "addrsyncd" || "addrsyncd-" <= name.value)
  }

  /** The process with this command line counts as a daemon with work directory `w`. */
  predicate Recognised(cmdline: string, w: string) {
    var seen := Parts("", cmdline);
    seen != [] && IsAddrsyncdArgv0(seen[0]) && ScanFrom(seen, 1, DEFAULT_WORK_DIR) == Some(w)
  }

  /** A process is recognised exactly when its non-empty arguments are a run command. */
  lemma RecognisedIff(args: seq<string>, w: string)
    requires forall i :: 0 <= i < |args| ==> NUL !in args[i]
    ensures var seen := NonEmpty(args);
            Recognised(Listed(args), w) <==>
            seen != [] && IsAddrsyncdArgv0(seen[0]) && IsRun(seen[1..], DEFAULT_WORK_DIR, w)
  {
    PartsOfListed(args);
    if NonEmpty(args) != [] {
      ScannerIsExact(NonEmpty(args), w);
    }
  }

  /** The program run with these arguments starts in work directory `w` as far as its parser goes. */
  predicate Starts(args: seq<string>, pbr: Outcome<()>, w: string) {
    RunsIn(ParseFrom(args, 1, DEFAULT_CONFIG_FILE, DEFAULT_WORK_DIR, pbr), w)
  }

  /**
   The process table and the parser agree on a process of the right name exactly
   when leaving out the empty arguments makes the same run command or none.
   */
  lemma RecognitionAgreesIff(args: seq<string>, pbr: Outcome<()>)
    requires forall i :: 0 <= i < |args| ==> NUL !in args[i]
    requires args != [] && IsAddrsyncdArgv0(args[0])
    ensures (forall w :: Recognised(Listed(args), w) <==> Starts(args, pbr, w)) <==>
            (forall w :: IsRun(NonEmpty(args[1..]), DEFAULT_WORK_DIR, w) <==> IsRun(args[1..], DEFAULT_WORK_DIR, w))
  {
    assert args[0] != "";
    assert NonEmpty(args)[1..] == NonEmpty(args[1..]);
    forall w
      ensures Recognised(Listed(args), w) <==> IsRun(NonEmpty(args[1..]), DEFAULT_WORK_DIR, w)
      ensures Starts(args, pbr, w) <==> IsRun(args[1..], DEFAULT_WORK_DIR, w)
    {
      RecognisedIff(args, w);
      ReadersAgree(args, pbr, w);
      ScannerIsExact(args, w);
    }
  }

  /** So a process without empty arguments is found under the work directory its own parser saw. */
  lemma ProcessIsRecognised(args: seq<string>, pbr: Outcome<()>, w: string)
    requires "" !in args && forall i :: 0 <= i < |args| ==> NUL !in args[i]
    requires args != [] && IsAddrsyncdArgv0(args[0])
    ensures Recognised(Listed(args), w) <==> Starts(args, pbr, w)
  {
    CmdlineRoundTripIff(args);
    ReadersAgree(args, pbr, w);
  }

  // What an empty option value does.  Without it the option takes the next word,
  // so the words are read in the wrong roles until a second empty value follows.

  /** A value that could not itself be read as an option or as the command. */
  predicate Plain(v: string) {
    !IsDirFlag(v) && !IsConfigFlag(v) && v != "run"
  }

  /** Options with empty values come in neighbouring pairs. */
  predicate Paired(opts: seq<GlobalOpt>) {
    if opts == [] then true
    else if opts[0].value != "" then Paired(opts[1..])
    else |opts| >= 2 && opts[1].value == "" && Paired(opts[2..])
  }

  /** What the scanner makes of the options once the empty values are gone. */
  function SeenDir(opts: seq<GlobalOpt>, dir: string): Option<string>
    decreases |opts|
  {
    if opts == [] then Some(dir)
    else if opts[0].value != "" then SeenDir(opts[1..], if opts[0].WorkDir? then opts[0].value else dir)
    else if |opts| == 1 || opts[1].value != "" then None
    else SeenDir(opts[2..], if opts[0].WorkDir? then Spell(opts[1])[0] else dir)
  }

  lemma {:induction false} NonEmptyConcat(a: seq<string>, b: seq<string>)
    ensures NonEmpty(a + b) == NonEmpty(a) + NonEmpty(b)
  {
    if a == [] {
      assert a + b == b;
    } else {
      assert (a + b)[1..] == a[1..] + b;
      NonEmptyConcat(a[1..], b);
    }
  }

  function SeenLine(opts: seq<GlobalOpt>, n: nat): seq<string> {
    NonEmpty(SpellAll(opts)) + (["run"] + Daemons(n))
  }

  lemma NonEmptyRunLine(opts: seq<GlobalOpt>, n: nat)
    ensures NonEmpty(RunLine(opts, n)) == SeenLine(opts, n)
  {
    var last := ["run"] + Daemons(n);
    assert RunLine(opts, n) == SpellAll(opts) + last;
    NonEmptyConcat(SpellAll(opts), last);
    NonEmptyIff(last);
  }

  lemma NonEmptySpell(o: GlobalOpt)
    ensures NonEmpty(Spell(o)) == if o.value == "" then [Spell(o)[0]] else Spell(o)
  {
    assert Spell(o)[1..] == [o.value];
    assert NonEmpty([o.value]) == if o.value == "" then [] else [o.value];
  }

  lemma SeenLineStep(opts: seq<GlobalOpt>, n: nat)
    requires opts != []
    ensures SeenLine(opts, n)
            == (if opts[0].value == "" then [Spell(opts[0])[0]] else Spell(opts[0])) + SeenLine(opts[1..], n)
  {
    NonEmptyConcat(Spell(opts[0]), SpellAll(opts[1..]));
    NonEmptySpell(opts[0]);
  }

  /** The scanner on a run command of plain values whose empty values are gone. */
  lemma {:induction false} ScanOfSeenLine(args: seq<string>, i: nat, opts: seq<GlobalOpt>, n: nat, dir: string)
    requires i <= |args| && args[i..] == SeenLine(opts, n)
    requires forall m :: 0 <= m < |opts| ==> Plain(opts[m].value)
    ensures ScanFrom(args, i, dir) == SeenDir(opts, dir)
    decreases |opts|
  {
    var tail := args[i..];
    if opts == [] {
      assert tail == ["run"] + Daemons(n);
      assert args[i] == tail[0] == "run" && args[i + 1..] == tail[1..] == Daemons(n);
    } else {
      SeenLineStep(opts, n);
      var flag := Spell(opts[0])[0];
      assert args[i] == tail[0] == flag;
      if opts[0].value != "" {
        assert args[i + 1] == tail[1] == opts[0].value;
        assert args[i + 2..] == tail[2..] == SeenLine(opts[1..], n);
        ScanOfSeenLine(args, i + 2, opts[1..], n, if opts[0].WorkDir? then opts[0].value else dir);
      } else if |opts| == 1 {
        ScanOfLastBlank(args, i, flag, n, dir);
      } else {
        SeenLineStep(opts[1..], n);
        assert tail == [flag] + SeenLine(opts[1..], n);
        assert args[i + 1] == tail[1] == Spell(opts[1])[0];
        if opts[1].value != "" {
          assert args[i + 2] == tail[2] == opts[1].value;
        } else {
          assert opts[1..][1..] == opts[2..];
          assert args[i + 2..] == tail[2..] == SeenLine(opts[2..], n);
          ScanOfSeenLine(args, i + 2, opts[2..], n, if opts[0].WorkDir? then Spell(opts[1])[0] else dir);
        }
      }
    }
  }

  /** An option that takes the command for its value. */
  lemma ScanOfLastBlank(args: seq<string>, i: nat, flag: string, n: nat, dir: string)
    requires i <= |args| && args[i..] == [flag] + (["run"] + Daemons(n)) && (IsDirFlag(flag) || IsConfigFlag(flag))
    ensures ScanFrom(args, i, dir) == None
  {
    var tail := args[i..];
    assert args[i] == tail[0] && args[i + 1] == tail[1] == "run";
    assert |args| > i + 2 ==> args[i + 2] == tail[2] == "--daemon";
  }

  /** In paired options a seen directory can differ from the one given only while the latter is empty. */
  lemma {:induction false} SeenDirIs(opts: seq<GlobalOpt>, seen: string, given: string)
    requires seen == given || given == ""
    ensures SeenDir(opts, seen).Some? <==> Paired(opts)
    ensures Paired(opts) && LastDir(opts, given) != "" ==> SeenDir(opts, seen) == Some(LastDir(opts, given))
    decreases |opts|
  {
    if opts != [] {
      var o := opts[0];
      var given1 := if o.WorkDir? then o.value else given;
      if o.value != "" {
        SeenDirIs(opts[1..], if o.WorkDir? then o.value else seen, given1);
      } else if |opts| >= 2 && opts[1].value == "" {
        var given2 := if opts[1].WorkDir? then "" else given1;
        assert opts[1..][1..] == opts[2..];
        assert LastDir(opts, given) == LastDir(opts[1..], given1) == LastDir(opts[2..], given2);
        SeenDirIs(opts[2..], if o.WorkDir? then Spell(opts[1])[0] else seen, given2);
      }
    }
  }

  /**
   A daemon with plain option values and a work directory is found by it if and
   only if its empty option values come in neighbouring pairs; otherwise the
   process table does not show it as a daemon at all.
   */
  lemma DaemonIsFoundIff(argv0: string, opts: seq<GlobalOpt>, n: nat, pbr: Outcome<()>, w: string)
    requires IsAddrsyncdArgv0(argv0) && NUL !in argv0
    requires forall m :: 0 <= m < |opts| ==> Plain(opts[m].value) && NUL !in opts[m].value
    requires w == LastDir(opts, DEFAULT_WORK_DIR) != ""
    ensures var args := [argv0] + RunLine(opts, n);
            && Starts(args, pbr, w)
            && (Recognised(Listed(args), w) <==> Paired(opts))
            && (!Paired(opts) ==> forall v :: !Recognised(Listed(args), v))
  {
    var args := [argv0] + RunLine(opts, n);
    assert args[1..] == RunLine(opts, n);
    ScannerIsExact(args, w);
    ReadersAgree(args, pbr, w);
    RunLineHasNoNul(opts, n);
    PartsOfListed(args);
    NonEmptyRunLine(opts, n);
    var seen := NonEmpty(args);
    assert seen == [argv0] + SeenLine(opts, n) && seen[1..] == SeenLine(opts, n);
    ScanOfSeenLine(seen, 1, opts, n, DEFAULT_WORK_DIR);
    SeenDirIs(opts, DEFAULT_WORK_DIR, DEFAULT_WORK_DIR);
  }

  lemma {:induction false} RunLineHasNoNul(opts: seq<GlobalOpt>, n: nat)
    requires forall m :: 0 <= m < |opts| ==> NUL !in opts[m].value
    ensures forall i :: 0 <= i < |RunLine(opts, n)| ==> NUL !in RunLine(opts, n)[i]
    decreases |opts|
  {
    if opts != [] {
      RunLineHasNoNul(opts[1..], n);
      assert RunLine(opts, n) == Spell(opts[0]) + RunLine(opts[1..], n);
    }
  }

  lemma PlainName()
    ensures IsAddrsyncdArgv0("addrsyncd")
  {
    assert LastSlash("addrsyncd") == 9;
  }

  /**
   Both ways the two can part.  A daemon started with an empty option value that
   a later one replaces is not found; a command line that the parser refuses for
   an empty last argument counts as a daemon while the process lasts.
   */
  lemma EmptyArgumentMisleads(pbr: Outcome<()>)
    ensures var args := ["addrsyncd", "-c", "", "-c", "a.toml", "run"];
            && ParseFrom(args, 1, DEFAULT_CONFIG_FILE, DEFAULT_WORK_DIR, pbr) == Ok(Cli("a.toml", ".", Run(false)))
            && forall v :: !Recognised(Listed(args), v)
    ensures var args := ["addrsyncd", "run", ""];
            ParseFrom(args, 1, DEFAULT_CONFIG_FILE, DEFAULT_WORK_DIR, pbr) == Failed && Recognised(Listed(args), ".")
  {
    PlainName();
    var opts := [Config(false, ""), Config(false, "a.toml")];
    DaemonIsFoundIff("addrsyncd", opts, 0, pbr, ".");
    assert SpellAll(opts) == ["-c", "", "-c", "a.toml"] by {
      assert opts[1..][1..] == [];
      assert SpellAll(opts[1..]) == ["-c", "a.toml"];
    }
    assert ["addrsyncd", "-c", "", "-c", "a.toml", "run"] == ["addrsyncd"] + RunLine(opts, 0);
    BlankReplaced(pbr);
    RefusedYetRecognised(pbr);
  }

  lemma BlankReplaced(pbr: Outcome<()>)
    ensures ParseFrom(["addrsyncd", "-c", "", "-c", "a.toml", "run"], 1, DEFAULT_CONFIG_FILE, DEFAULT_WORK_DIR, pbr)
            == Ok(Cli("a.toml", ".", Run(false)))
  {
    var args := ["addrsyncd", "-c", "", "-c", "a.toml", "run"];
    assert RunFlags(args, 6, false) == Ok(Run(false));
    assert ParseFrom(args, 5, "a.toml", ".", pbr) == Ok(Cli("a.toml", ".", Run(false)));
    assert ParseFrom(args, 3, "", ".", pbr) == Ok(Cli("a.toml", ".", Run(false)));
  }

  lemma RefusedYetRecognised(pbr: Outcome<()>)
    ensures var args := ["addrsyncd", "run", ""];
            ParseFrom(args, 1, DEFAULT_CONFIG_FILE, DEFAULT_WORK_DIR, pbr) == Failed && Recognised(Listed(args), ".")
  {
    PlainName();
    var args := ["addrsyncd", "run", ""];
    PartsOfListed(args);
    assert args[1..] == ["run", ""] && args[1..][1..] == [""] && args[1..][1..][1..] == [];
    assert NonEmpty([""]) == [];
    assert NonEmpty(args) == ["addrsyncd", "run"];
    assert RunFlags(args, 2, false) == Failed;
  }
}
