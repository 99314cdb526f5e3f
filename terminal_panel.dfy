/** The decision rules of the terminal panel: how a task's command is wrapped
    in a shell, whether a task reuses a terminal or gets a new one, how the
    pane-cycling actions pick the next pane, and the panel's size and
    pending-terminal bookkeeping. Panes and terminals are identified by
    numbers; the view tree they live in is not modelled. */
module TerminalPanel {
  import opened Options
  import opened Sequences
  import opened Strings
  import opened WindowsShell

  // ===========================================================================
  // Wrapping a task's command in a shell (`fill_command`)
  // ===========================================================================

  /** The platform the editor is built for; the source chooses with `#[cfg(target_os = "windows")]`. */
  datatype Os = Windows | NotWindows

  /** How a task wants its shell chosen. */
  datatype Shell =
    | System
    | Program(program: string)
    | WithArguments(program: string, args: seq<string>)

  datatype ControlFlow = Continue | Break

  /** The shell of a remote project: the remote side expands `$SHELL`, or falls back to `sh`. */
  const RemoteSystemShell: string := "\"${SHELL:-sh}\""

  /** `retrieve_system_shell`: PowerShell on Windows; elsewhere the SHELL
      environment variable, whose value (if it is set) is an input here. */
  function RetrieveSystemShell(os: Os, shellVariable: Option<string>): (r: Option<string>)
    ensures os == Windows ==> r == Some("powershell")
    ensures os == NotWindows ==> r == shellVariable
  {
    if os == Windows then Some("powershell") else shellVariable
  }

  /** The program and the user arguments `fill_command` starts from, or None when no shell is found. */
  function ResolveShell(shell: Shell, isLocal: bool, os: Os, shellVariable: Option<string>)
    : (r: Option<(string, seq<string>)>)
    ensures r.None? <==> shell == System && isLocal && os == NotWindows && shellVariable == None
    ensures shell.Program? ==> r == Some((shell.program, []))
    ensures shell.WithArguments? ==> r == Some((shell.program, shell.args))
    ensures shell == System && !isLocal ==> r == Some((RemoteSystemShell, []))
    ensures shell == System && isLocal && os == Windows ==> r == Some(("powershell", []))
    ensures shell == System && isLocal && shellVariable.Some? && os == NotWindows
        ==> r == Some((shellVariable.value, []))
  {
    match shell
    case System =>
      if isLocal then
        match RetrieveSystemShell(os, shellVariable)
        case Some(program) => Some((program, []))
        case None => None
      else Some((RemoteSystemShell, []))
    case Program(program) => Some((program, []))
    case WithArguments(program, args) => Some((program, args))
  }

  /** Which command shape applies. Builds for other platforms use the `-i -c`
      shape with arguments passed through unchanged, which is exactly the
      Windows shape for `Other` shells. */
  function ShellKind(os: Os, program: string): WindowsShellType {
    if os == Windows then ToWindowsShellType(program) else Other
  }

  /** The arguments that make the shell run one command string. */
  function CommandFlags(kind: WindowsShellType): seq<string> {
    match kind
    case Powershell => ["-C"]
    case Cmd => ["/C"]
    case Other => ["-i", "-c"]
  }

  /** The label shown for the wrapped task: the program, its flags, and the old label in single quotes. */
  function ShellLabel(kind: WindowsShellType, program: string, taskLabel: string): string {
    var flags := (match kind
      case Powershell => " -C '"
      case Cmd => " /C '"
      case Other => " -i -c '");
    program + flags + taskLabel + "'"
  }

  /** No argument makes the variable conversion panic. */
  predicate ArgsConvertible(kind: WindowsShellType, args: seq<string>) {
    forall i :: 0 <= i < |args| ==> !PanicsFor(kind, args[i])
  }

  /** Each argument, converted for the shell. */
  function ConvertArgs(kind: WindowsShellType, args: seq<string>): (converted: seq<string>)
    requires ArgsConvertible(kind, args)
    ensures |converted| == |args|
    ensures forall i :: 0 <= i < |args| ==> converted[i] == ToWindowsShellVariable(kind, args[i])
  {
    seq(|args|, i requires 0 <= i < |args| => ToWindowsShellVariable(kind, args[i]))
  }

  /** Arguments for an `Other` shell pass through unchanged. */
  lemma OtherArgsUnconverted(args: seq<string>)
    ensures ArgsConvertible(Other, args) && ConvertArgs(Other, args) == args
  {
  }

  /** A space and then the piece, for each piece in order. */
  function SpaceJoined(pieces: seq<string>): string {
    if pieces == [] then "" else " " + pieces[0] + SpaceJoined(pieces[1..])
  }

  lemma {:induction false} SpaceJoinedAppend(pieces: seq<string>, p: string)
    ensures SpaceJoined(pieces + [p]) == SpaceJoined(pieces) + " " + p
    decreases |pieces|
  {
    if pieces == [] {
      assert [p][1..] == [];
    } else {
      assert (pieces + [p])[1..] == pieces[1..] + [p];
      SpaceJoinedAppend(pieces[1..], p);
    }
  }

  /** What the fold of `fill_command` appends to the command. */
  function JoinedArgs(kind: WindowsShellType, args: seq<string>): string
    requires ArgsConvertible(kind, args)
  {
    SpaceJoined(ConvertArgs(kind, args))
  }

  /** The fold of `fill_command`: starting from the task's command, push a
      space and then each argument, converted for the shell. */
  method CombineArgs(kind: WindowsShellType, command: string, args: seq<string>) returns (combined: string)
    requires ArgsConvertible(kind, args)
    ensures combined == command + JoinedArgs(kind, args)
  {
    ghost var converted := ConvertArgs(kind, args);
    combined := command;
    var i := 0;
    while i < |args|
      invariant 0 <= i <= |args|
      invariant combined == command + SpaceJoined(converted[..i])
    {
      var arg := ToWindowsShellVariable(kind, args[i]);
      JoinedPrefixStep(converted, i);
      combined := combined + " " + arg;
      i := i + 1;
    }
    assert converted[..i] == converted;
  }

  /** One more piece of the fold: the prefix of length `i + 1` joins to the prefix of length `i`, a space and piece `i`. */
  lemma JoinedPrefixStep(pieces: seq<string>, i: nat)
    requires i < |pieces|
    ensures SpaceJoined(pieces[..i + 1]) == SpaceJoined(pieces[..i]) + " " + pieces[i]
  {
    assert pieces[..i + 1] == pieces[..i] + [pieces[i]];
    SpaceJoinedAppend(pieces[..i], pieces[i]);
  }

  lemma {:induction false} SplitSpaceJoined(command: string, pieces: seq<string>)
    requires ' ' !in command
    requires forall i :: 0 <= i < |pieces| ==> ' ' !in pieces[i]
    ensures Split(command + SpaceJoined(pieces), ' ') == [command] + pieces
    decreases |pieces|
  {
    if pieces == [] {
      assert command + "" == command;
    } else {
      var rest := pieces[0] + SpaceJoined(pieces[1..]);
      assert command + SpaceJoined(pieces) == command + [' '] + rest;
      SplitAfterPiece(command, ' ', rest);
      SplitSpaceJoined(pieces[0], pieces[1..]);
      assert [pieces[0]] + pieces[1..] == pieces;
    }
  }

  /** With the `-i -c` shape, the command string is the command followed by
      the raw arguments, in order: when no piece holds a space, splitting the
      string at spaces gives back the command and the arguments. */
  lemma CombinedCommandSplits(command: string, args: seq<string>)
    requires ' ' !in command
    requires forall i :: 0 <= i < |args| ==> ' ' !in args[i]
    ensures ArgsConvertible(Other, args)
    ensures Split(command + JoinedArgs(Other, args), ' ') == [command] + args
  {
    OtherArgsUnconverted(args);
    SplitSpaceJoined(command, args);
  }

  /** The fields of a task that `fill_command` rewrites. */
  datatype CommandLine = CommandLine(command: string, args: seq<string>, commandLabel: string)

  /** `fill_command` runs without panicking: every argument survives the variable conversion of the shell it picks. */
  predicate FillCommandDefined(isLocal: bool, os: Os, shellVariable: Option<string>, shell: Shell, args: seq<string>) {
    match ResolveShell(shell, isLocal, os, shellVariable)
    case None => true
    case Some(resolved) => ArgsConvertible(ShellKind(os, resolved.0), args)
  }

  /** The task fields after `fill_command`, or None where it returns `Break`. */
  function FilledCommand(isLocal: bool, os: Os, shellVariable: Option<string>, shell: Shell, task: CommandLine)
    : (r: Option<CommandLine>)
    requires FillCommandDefined(isLocal, os, shellVariable, shell, task.args)
    ensures r.None? <==> shell == System && isLocal && os == NotWindows && shellVariable == None
  {
    match ResolveShell(shell, isLocal, os, shellVariable)
    case None => None
    case Some((program, userArgs)) =>
      var kind := ShellKind(os, program);
      Some(CommandLine(
        program,
        userArgs + CommandFlags(kind) + [task.command + JoinedArgs(kind, task.args)],
        ShellLabel(kind, program, task.commandLabel)))
  }

  lemma FilledCommandUnfold(isLocal: bool, os: Os, shellVariable: Option<string>, shell: Shell, task: CommandLine)
    requires FillCommandDefined(isLocal, os, shellVariable, shell, task.args)
    requires ResolveShell(shell, isLocal, os, shellVariable).Some?
    ensures var (program, userArgs) := ResolveShell(shell, isLocal, os, shellVariable).value;
            var kind := ShellKind(os, program);
            FilledCommand(isLocal, os, shellVariable, shell, task) == Some(CommandLine(
              program,
              userArgs + CommandFlags(kind) + [task.command + JoinedArgs(kind, task.args)],
              ShellLabel(kind, program, task.commandLabel)))
  {
  }

  /** On every platform the task's program becomes the shell, and the last
      argument is the task's command followed by its converted arguments. */
  lemma FilledCommandShape(isLocal: bool, os: Os, shellVariable: Option<string>, shell: Shell, task: CommandLine)
    requires FillCommandDefined(isLocal, os, shellVariable, shell, task.args)
    requires FilledCommand(isLocal, os, shellVariable, shell, task).Some?
    ensures var r := FilledCommand(isLocal, os, shellVariable, shell, task).value;
            && r.command == ResolveShell(shell, isLocal, os, shellVariable).value.0
            && |r.args| >= 2
            && r.args[|r.args| - 1] == task.command + JoinedArgs(ShellKind(os, r.command), task.args)
  {
  }

  /** Outside Windows: the task runs as `shell <user args> -i -c "<command> <args>"`,
      labelled `shell -i -c '<old label>'`. */
  lemma NonWindowsFill(isLocal: bool, shellVariable: Option<string>, shell: Shell, task: CommandLine)
    requires FillCommandDefined(isLocal, NotWindows, shellVariable, shell, task.args)
    requires FilledCommand(isLocal, NotWindows, shellVariable, shell, task).Some?
    ensures var (program, userArgs) := ResolveShell(shell, isLocal, NotWindows, shellVariable).value;
            var r := FilledCommand(isLocal, NotWindows, shellVariable, shell, task).value;
            && r.command == program
            && r.args == userArgs + ["-i", "-c", task.command + JoinedArgs(Other, task.args)]
            && r.commandLabel == program + " -i -c '" + task.commandLabel + "'"
  {
  }

  /** A remote project's system shell is the quoted `${SHELL:-sh}` with no user arguments; outside Windows
      the task's arguments are then exactly `-i`, `-c` and the command string. */
  lemma RemoteSystemShellFill(shellVariable: Option<string>, task: CommandLine)
    ensures FillCommandDefined(false, NotWindows, shellVariable, System, task.args)
    ensures var r := FilledCommand(false, NotWindows, shellVariable, System, task);
            && r.Some?
            && r.value.command == "\"${SHELL:-sh}\""
            && r.value.args == ["-i", "-c", task.command + JoinedArgs(Other, task.args)]
  {
  }

  /** A shell given with arguments keeps them, in order, in front of the flags and the command string. */
  lemma WithArgumentsPrefix(isLocal: bool, os: Os, shellVariable: Option<string>, program: string, userArgs: seq<string>, task: CommandLine)
    requires FillCommandDefined(isLocal, os, shellVariable, WithArguments(program, userArgs), task.args)
    ensures var r := FilledCommand(isLocal, os, shellVariable, WithArguments(program, userArgs), task);
            && r.Some?
            && r.value.command == program
            && |r.value.args| > |userArgs|
            && r.value.args[..|userArgs|] == userArgs
  {
    var r := FilledCommand(isLocal, os, shellVariable, WithArguments(program, userArgs), task).value;
    var kind := ShellKind(os, program);
    assert r.args == userArgs + (CommandFlags(kind) + [task.command + JoinedArgs(kind, task.args)]);
  }

  /** On Windows, a local project's system shell is PowerShell: the task runs as
      `powershell -C "<command> <converted args>"`. */
  lemma WindowsLocalSystemShell(shellVariable: Option<string>, task: CommandLine)
    requires ArgsConvertible(Powershell, task.args)
    ensures FillCommandDefined(true, Windows, shellVariable, System, task.args)
    ensures var r := FilledCommand(true, Windows, shellVariable, System, task);
            && r.Some?
            && r.value.command == "powershell"
            && r.value.args == ["-C", task.command + JoinedArgs(Powershell, task.args)]
            && r.value.commandLabel == "powershell -C '" + task.commandLabel + "'"
  {
    BareNamesClassified();
  }

  /** On Windows, a cmd program gets `/C` and `%VAR%` arguments. */
  lemma WindowsCmdFill(isLocal: bool, shellVariable: Option<string>, program: string, task: CommandLine)
    requires ToWindowsShellType(program) == Cmd
    requires ArgsConvertible(Cmd, task.args)
    ensures FillCommandDefined(isLocal, Windows, shellVariable, Program(program), task.args)
    ensures var r := FilledCommand(isLocal, Windows, shellVariable, Program(program), task);
            && r.Some?
            && r.value.args == ["/C", task.command + JoinedArgs(Cmd, task.args)]
            && r.value.commandLabel == program + " /C '" + task.commandLabel + "'"
  {
  }

  /** A task as the task system hands it to the panel. Only the fields the
      panel's rules read or write are kept. */
  class SpawnInTerminal {
    var fullLabel: string
    var command: string
    var args: seq<string>
    var commandLabel: string
    var shell: Shell
    var allowConcurrentRuns: bool
    var useNewTerminal: bool

    constructor (fullLabel: string, command: string, args: seq<string>, commandLabel: string,
                 shell: Shell, allowConcurrentRuns: bool, useNewTerminal: bool)
      ensures this.fullLabel == fullLabel && this.command == command && this.args == args
      ensures this.commandLabel == commandLabel && this.shell == shell
      ensures this.allowConcurrentRuns == allowConcurrentRuns && this.useNewTerminal == useNewTerminal
    {
      this.fullLabel := fullLabel;
      this.command := command;
      this.args := args;
      this.commandLabel := commandLabel;
      this.shell := shell;
      this.allowConcurrentRuns := allowConcurrentRuns;
      this.useNewTerminal := useNewTerminal;
    }

    /** The fields `fill_command` rewrites. */
    function Line(): CommandLine
      reads this
    {
      CommandLine(command, args, commandLabel)
    }

    /** The part of `fill_command` after the shell is chosen: the label is
        rewritten, the program becomes the shell, and the arguments become the
        shell's own arguments, its flags and the combined command. */
    method WrapInShell(kind: WindowsShellType, shell: string, userArgs: seq<string>)
      requires ArgsConvertible(kind, args)
      modifies this`command, this`args, this`commandLabel
      ensures Line() == CommandLine(shell, userArgs + CommandFlags(kind) + [old(command) + JoinedArgs(kind, old(args))],
                                    ShellLabel(kind, shell, old(commandLabel)))
    {
      commandLabel := ShellLabel(kind, shell, commandLabel);
      var taskCommand := command;
      command := shell;
      var taskArgs := args;
      args := [];
      var combined := CombineArgs(kind, taskCommand, taskArgs);
      args := userArgs + CommandFlags(kind) + [combined];
    }

    method Clone() returns (c: SpawnInTerminal)
      ensures fresh(c)
      ensures c.fullLabel == fullLabel && c.Line() == Line() && c.shell == shell
      ensures c.allowConcurrentRuns == allowConcurrentRuns && c.useNewTerminal == useNewTerminal
    {
      c := new SpawnInTerminal(fullLabel, command, args, commandLabel, shell, allowConcurrentRuns, useNewTerminal);
    }
  }

  // ===========================================================================
  // Reusing a terminal for a task (`terminals_for_task`, `spawn_task`)
  // ===========================================================================

  type PaneId = nat
  type EntityId = nat

  /** What a pane item is, as far as task matching sees it: a terminal view
      knows the full label of the task it runs, if any. */
  datatype ItemKind = NotTerminal | TerminalView(taskLabel: Option<string>)
  datatype Item = Item(entity: EntityId, kind: ItemKind)
  datatype Pane = Pane(id: PaneId, items: seq<Item>)

  /** An entry of `terminals_for_task`: the item's index in its pane, the pane, and the terminal view. */
  datatype TerminalMatch = TerminalMatch(itemIndex: nat, pane: PaneId, terminal: EntityId)

  predicate RunsTask(item: Item, taskLabel: string) {
    item.kind == TerminalView(Some(taskLabel))
  }

  function MatchAt(pane: Pane, index: nat): TerminalMatch
    requires index < |pane.items|
  {
    TerminalMatch(index, pane.id, pane.items[index].entity)
  }

  /** A match of `taskLabel` is the entry of some item of some pane that runs that task. */
  ghost predicate IsMatchIn(taskLabel: string, panes: seq<Pane>, m: TerminalMatch) {
    exists p, i :: 0 <= p < |panes| && 0 <= i < |panes[p].items|
      && RunsTask(panes[p].items[i], taskLabel) && m == MatchAt(panes[p], i)
  }

  /** The matching items of one pane, from index `from` on. */
  function PaneTerminalsForTask(taskLabel: string, pane: Pane, from: nat): (r: seq<TerminalMatch>)
    requires from <= |pane.items|
    ensures forall m :: m in r <==>
      exists i :: from <= i < |pane.items| && RunsTask(pane.items[i], taskLabel) && m == MatchAt(pane, i)
    decreases |pane.items| - from
  {
    if from == |pane.items| then []
    else
      (if RunsTask(pane.items[from], taskLabel) then [MatchAt(pane, from)] else [])
      + PaneTerminalsForTask(taskLabel, pane, from + 1)
  }

  /** `terminals_for_task`: every terminal, in the panel's panes and then the
      workspace's, whose task has this full label. The source also sorts the
      entries by terminal entity id; only `LatestIndex` depends on the order,
      and it is stated so that it picks the same entry from either order. */
  function TerminalsForTask(taskLabel: string, panes: seq<Pane>): (r: seq<TerminalMatch>)
    ensures forall m :: m in r <==> IsMatchIn(taskLabel, panes, m)
  {
    if panes == [] then []
    else
      var first := PaneTerminalsForTask(taskLabel, panes[0], 0);
      var rest := TerminalsForTask(taskLabel, panes[1..]);
      assert forall m :: IsMatchIn(taskLabel, panes, m) <==> m in first || IsMatchIn(taskLabel, panes[1..], m) by {
        forall m ensures IsMatchIn(taskLabel, panes, m) <==> m in first || IsMatchIn(taskLabel, panes[1..], m) {
          if IsMatchIn(taskLabel, panes, m) {
            var p, i :| 0 <= p < |panes| && 0 <= i < |panes[p].items|
              && RunsTask(panes[p].items[i], taskLabel) && m == MatchAt(panes[p], i);
            if p > 0 {
              assert panes[1..][p - 1] == panes[p];
            }
          }
          if IsMatchIn(taskLabel, panes[1..], m) {
            var p, i :| 0 <= p < |panes[1..]| && 0 <= i < |panes[1..][p].items|
              && RunsTask(panes[1..][p].items[i], taskLabel) && m == MatchAt(panes[1..][p], i);
            assert panes[p + 1] == panes[1..][p];
          }
        }
      }
      first + rest
  }

  /** `k` is the entry that `.last()` takes after a stable sort by terminal
      entity id: no entry has a larger id, and no later entry has the same id. */
  predicate LastBySortKey(ms: seq<TerminalMatch>, k: nat) {
    && k < |ms|
    && (forall j :: 0 <= j < |ms| ==> ms[j].terminal <= ms[k].terminal)
    && (forall j :: k < j < |ms| ==> ms[j].terminal < ms[k].terminal)
  }

  /** At most one entry is last by sort key, so the target is determined. */
  lemma LastBySortKeyUnique(ms: seq<TerminalMatch>, k1: nat, k2: nat)
    requires LastBySortKey(ms, k1) && LastBySortKey(ms, k2)
    ensures k1 == k2
  {
    assert ms[k1].terminal == ms[k2].terminal;
  }

  /** The index of the entry the last-after-sorting rule picks. */
  function LatestIndex(ms: seq<TerminalMatch>): (k: nat)
    requires |ms| > 0
    ensures LastBySortKey(ms, k)
  {
    if |ms| == 1 then 0
    else
      var k := LatestIndex(ms[1..]) + 1;
      assert ms[k] == ms[1..][k - 1];
      if ms[0].terminal > ms[k].terminal then 0 else k
  }

  /** What `spawn_task` does once the command is filled in. */
  datatype SpawnPlan =
    | SpawnInNewTerminal
    | ReplaceTerminal(target: TerminalMatch)
    | AwaitThenSpawnNew(waitFor: seq<TerminalMatch>)
    | AwaitThenReplace(waitFor: seq<TerminalMatch>, target: TerminalMatch)

  /** The reuse-or-new decision of `spawn_task`. */
  function SpawnDecision(allowConcurrentRuns: bool, useNewTerminal: bool, terminalsForTask: seq<TerminalMatch>)
    : (plan: SpawnPlan)
    ensures plan == SpawnInNewTerminal <==> (allowConcurrentRuns && useNewTerminal) || terminalsForTask == []
    ensures plan.ReplaceTerminal? <==> allowConcurrentRuns && !useNewTerminal && terminalsForTask != []
    ensures plan.AwaitThenSpawnNew? <==> !allowConcurrentRuns && useNewTerminal && terminalsForTask != []
    ensures plan.AwaitThenReplace? <==> !allowConcurrentRuns && !useNewTerminal && terminalsForTask != []
    ensures plan.AwaitThenSpawnNew? || plan.AwaitThenReplace? ==> plan.waitFor == terminalsForTask
    ensures plan.ReplaceTerminal? || plan.AwaitThenReplace? ==>
      exists k: nat :: LastBySortKey(terminalsForTask, k) && plan.target == terminalsForTask[k]
  {
    if allowConcurrentRuns && useNewTerminal then SpawnInNewTerminal
    else if terminalsForTask == [] then SpawnInNewTerminal
    else
      var k := LatestIndex(terminalsForTask);
      var target := terminalsForTask[k];
      if allowConcurrentRuns then ReplaceTerminal(target)
      else if useNewTerminal then AwaitThenSpawnNew(terminalsForTask)
      else AwaitThenReplace(terminalsForTask, target)
  }

  /** A replaced terminal does run the task being spawned. */
  lemma ReplacedTerminalRunsTask(allowConcurrentRuns: bool, useNewTerminal: bool, taskLabel: string, panes: seq<Pane>)
    ensures var plan := SpawnDecision(allowConcurrentRuns, useNewTerminal, TerminalsForTask(taskLabel, panes));
            plan.ReplaceTerminal? || plan.AwaitThenReplace? ==> IsMatchIn(taskLabel, panes, plan.target)
  {
    var ms := TerminalsForTask(taskLabel, panes);
    var plan := SpawnDecision(allowConcurrentRuns, useNewTerminal, ms);
    if plan.ReplaceTerminal? || plan.AwaitThenReplace? {
      var k: nat :| LastBySortKey(ms, k) && plan.target == ms[k];
      assert ms[k] in ms;
    }
  }

  /** The workspace as `spawn_task` sees it: whether its project is local, and its panes. */
  datatype Workspace = Workspace(isLocal: bool, panes: seq<Pane>)

  // ===========================================================================
  // Pane cycling (`ActivateNextPane`, `ActivatePreviousPane`)
  // ===========================================================================

  /** 2^64: `usize` on a 64-bit target, where `wrapping_sub` wraps. */
  const UsizeModulus: int := 0x1_0000_0000_0000_0000

  /** `a.wrapping_sub(b)` on `usize`. */
  function WrappingSub(a: nat, b: nat): (r: nat)
    requires a < UsizeModulus && b < UsizeModulus
    ensures r < UsizeModulus
    ensures a >= b ==> r == a - b
    ensures a < b ==> r == a - b + UsizeModulus
  {
    (a - b) % UsizeModulus
  }

  /** The next pane index: `(ix + 1) % n`. */
  function NextIndex(ix: nat, n: nat): (r: nat)
    requires ix < n
    ensures r < n
    ensures ix + 1 < n ==> r == ix + 1
    ensures ix + 1 == n ==> r == 0
  {
    (ix + 1) % n
  }

  /** The previous pane index: `min(ix.wrapping_sub(1), n - 1)`. */
  function PreviousIndex(ix: nat, n: nat): (r: nat)
    requires ix < n < UsizeModulus
    ensures r < n
    ensures ix > 0 ==> r == ix - 1
    ensures ix == 0 ==> r == n - 1
  {
    var w := WrappingSub(ix, 1);
    if w < n - 1 then w else n - 1
  }

  lemma PreviousUndoesNext(ix: nat, n: nat)
    requires ix < n < UsizeModulus
    ensures PreviousIndex(NextIndex(ix, n), n) == ix
    ensures NextIndex(PreviousIndex(ix, n), n) == ix
  {
  }

  /** The pane the next-pane action focuses, or None when the active pane is not among the panes. */
  function NextPaneIn(panes: seq<PaneId>, active: PaneId): (r: Option<PaneId>)
    ensures r.None? <==> active !in panes
    ensures r.Some? ==> r.value in panes
  {
    match IndexOf(panes, active)
    case None => None
    case Some(ix) => Some(panes[NextIndex(ix, |panes|)])
  }

  /** The pane the previous-pane action focuses. */
  function PreviousPaneIn(panes: seq<PaneId>, active: PaneId): (r: Option<PaneId>)
    requires |panes| < UsizeModulus
    ensures r.None? <==> active !in panes
    ensures r.Some? ==> r.value in panes
  {
    match IndexOf(panes, active)
    case None => None
    case Some(ix) => Some(panes[PreviousIndex(ix, |panes|)])
  }

  /** Among distinct panes, going to the next pane and then to the previous one
      comes back to the start, and the other way round. */
  lemma PreviousPaneUndoesNext(panes: seq<PaneId>, active: PaneId)
    requires Distinct(panes) && active in panes && |panes| < UsizeModulus
    ensures NextPaneIn(panes, active).Some? && PreviousPaneIn(panes, NextPaneIn(panes, active).value) == Some(active)
    ensures PreviousPaneIn(panes, active).Some? && NextPaneIn(panes, PreviousPaneIn(panes, active).value) == Some(active)
  {
    var ix := IndexOf(panes, active).value;
    PreviousUndoesNext(ix, |panes|);
    IndexOfDistinct(panes, NextIndex(ix, |panes|));
    IndexOfDistinct(panes, PreviousIndex(ix, |panes|));
  }

  // ===========================================================================
  // The panel
  // ===========================================================================

  datatype DockPosition = Left | Bottom | Right

  /** Sizes are only stored and handed back here, never computed with. */
  type Pixels = real

  function PaneIds(panes: seq<Pane>): (ids: seq<PaneId>)
    ensures |ids| == |panes| && forall i :: 0 <= i < |panes| ==> ids[i] == panes[i].id
  {
    seq(|panes|, i requires 0 <= i < |panes| => panes[i].id)
  }

  /** The number of items in all panes. */
  function TotalItems(panes: seq<Pane>): nat {
    if panes == [] then 0 else |panes[0].items| + TotalItems(panes[1..])
  }

  lemma {:induction false} TotalItemsBound(panes: seq<Pane>, k: nat)
    requires k < |panes|
    ensures |panes[k].items| <= TotalItems(panes)
    decreases |panes|
  {
    if k > 0 {
      TotalItemsBound(panes[1..], k - 1);
    }
  }

  /** The label on the panel's button: the number of items in all panes, or none when there are none. */
  function IconLabel(panes: seq<Pane>): (r: Option<string>)
    ensures r.None? <==> TotalItems(panes) == 0
    ensures r.Some? ==> (forall i :: 0 <= i < |r.value| ==> IsDigit(r.value[i])) && DecimalValue(r.value) == TotalItems(panes)
    ensures r.Some? ==> r.value != [] && r.value[0] != '0'
  {
    var count := TotalItems(panes);
    if count == 0 then None
    else
      DecimalRoundTrip(count);
      Some(NatToDecimal(count))
  }

  class TerminalPanel {
    var center: seq<Pane>
    var activePane: PaneId
    var width: Option<Pixels>
    var height: Option<Pixels>
    var pendingTerminalsToAdd: nat

    /** The panes are distinct and the active one is among them. */
    ghost predicate Valid()
      reads this
    {
      Distinct(PaneIds(center)) && activePane in PaneIds(center)
    }

    /** `new`: one empty pane, which is active; no stored sizes; nothing pending. */
    constructor (pane: PaneId)
      ensures Valid()
      ensures center == [Pane(pane, [])] && activePane == pane
      ensures width == None && height == None && pendingTerminalsToAdd == 0
    {
      center := [Pane(pane, [])];
      activePane := pane;
      width := None;
      height := None;
      pendingTerminalsToAdd := 0;
      new;
      assert PaneIds(center) == [pane];
    }

    /** `fill_command`: runs the task inside a shell, or returns `Break` and leaves it alone when no shell is found. */
    static method FillCommand(isLocal: bool, os: Os, shellVariable: Option<string>,
                              spawnInTerminal: SpawnInTerminal, spawnTask: SpawnInTerminal)
      returns (flow: ControlFlow)
      requires FillCommandDefined(isLocal, os, shellVariable, spawnInTerminal.shell, spawnTask.args)
      modifies spawnTask`command, spawnTask`args, spawnTask`commandLabel
      ensures flow == Break <==> spawnInTerminal.shell == System && isLocal && os == NotWindows && shellVariable == None
      ensures flow == Break ==> spawnTask.Line() == old(spawnTask.Line())
      ensures flow == Continue ==>
        spawnTask.Line() == FilledCommand(isLocal, os, shellVariable, spawnInTerminal.shell, old(spawnTask.Line())).value
    {
      var shellSetting := spawnInTerminal.shell;
      var task := spawnTask.Line();
      var resolved := ResolveShell(shellSetting, isLocal, os, shellVariable);
      if resolved.None? {
        return Break;
      }
      var shell, userArgs := resolved.value.0, resolved.value.1;
      FilledCommandUnfold(isLocal, os, shellVariable, shellSetting, task);
      spawnTask.WrapInShell(ShellKind(os, shell), shell, userArgs);
      flow := Continue;
    }

    /** `spawn_task`, up to the point where it hands the work to asynchronous tasks:
        nothing happens when the workspace is gone or no shell is found;
        otherwise a filled-in copy of the task and the reuse-or-new plan. */
    method SpawnTask(spawnInTerminal: SpawnInTerminal, workspace: Option<Workspace>, os: Os, shellVariable: Option<string>)
      returns (spawnTask: SpawnInTerminal, plan: Option<SpawnPlan>)
      requires workspace.Some? ==>
        FillCommandDefined(workspace.value.isLocal, os, shellVariable, spawnInTerminal.shell, spawnInTerminal.args)
      ensures fresh(spawnTask)
      ensures plan.None? <==> (workspace.None? ||
        (spawnInTerminal.shell == System && workspace.value.isLocal && os == NotWindows && shellVariable == None))
      ensures plan.Some? ==>
        && spawnTask.Line() == FilledCommand(workspace.value.isLocal, os, shellVariable, spawnInTerminal.shell, spawnInTerminal.Line()).value
        && spawnTask.fullLabel == spawnInTerminal.fullLabel
        && plan.value == SpawnDecision(spawnInTerminal.allowConcurrentRuns, spawnInTerminal.useNewTerminal,
                                       TerminalsForTask(spawnInTerminal.fullLabel, center + workspace.value.panes))
    {
      spawnTask := spawnInTerminal.Clone();
      if workspace.None? {
        return spawnTask, None;
      }
      var flow := FillCommand(workspace.value.isLocal, os, shellVariable, spawnInTerminal, spawnTask);
      if flow == Break {
        return spawnTask, None;
      }
      var terminalsForTask := TerminalsForTask(spawnInTerminal.fullLabel, center + workspace.value.panes);
      plan := Some(SpawnDecision(spawnInTerminal.allowConcurrentRuns, spawnInTerminal.useNewTerminal, terminalsForTask));
    }

    /** The pane `ActivateNextPane` focuses. */
    function NextPane(): (r: Option<PaneId>)
      reads this
      requires Valid()
      ensures r.Some? && r.value in PaneIds(center)
    {
      NextPaneIn(PaneIds(center), activePane)
    }

    /** The pane `ActivatePreviousPane` focuses. */
    function PreviousPane(): (r: Option<PaneId>)
      reads this
      requires Valid() && |center| < UsizeModulus
      ensures r.Some? && r.value in PaneIds(center)
    {
      PreviousPaneIn(PaneIds(center), activePane)
    }

    /** A pane's `Focus` event makes it the active pane. */
    method FocusPane(pane: PaneId)
      requires Valid() && pane in PaneIds(center)
      modifies this`activePane
      ensures Valid() && activePane == pane
    {
      activePane := pane;
    }

    /** `size`: the stored width or height for the dock's axis, or the settings' default. */
    function Size(position: DockPosition, defaultWidth: Pixels, defaultHeight: Pixels): (r: Pixels)
      reads this
      ensures position != Bottom ==> r == width.GetOr(defaultWidth)
      ensures position == Bottom ==> r == height.GetOr(defaultHeight)
    {
      match position
      case Left => width.GetOr(defaultWidth)
      case Right => width.GetOr(defaultWidth)
      case Bottom => height.GetOr(defaultHeight)
    }

    /** `set_size`: stores the size on the dock's axis and leaves the other axis alone. */
    method SetSize(position: DockPosition, size: Option<Pixels>)
      modifies this`width, this`height
      ensures position != Bottom ==> width == size && height == old(height)
      ensures position == Bottom ==> height == size && width == old(width)
      ensures forall dw, dh :: Size(position, dw, dh) == size.GetOr(if position == Bottom then dh else dw)
    {
      match position
      case Left => width := size;
      case Right => width := size;
      case Bottom => height := size;
    }

    /** `add_terminal`, synchronous part: refused when the project does not
        support terminals; otherwise one more terminal is pending. */
    method AddTerminal(enabled: bool) returns (started: bool)
      modifies this`pendingTerminalsToAdd
      ensures started == enabled
      ensures pendingTerminalsToAdd == old(pendingTerminalsToAdd) + (if enabled then 1 else 0)
      ensures Valid() && enabled ==> !HasNoTerminals() && !OpensTerminalOnActivate(true)
    {
      if !enabled {
        return false;
      }
      pendingTerminalsToAdd := pendingTerminalsToAdd + 1;
      started := true;
    }

    /** The last step of `add_terminal`'s asynchronous part, reached once the
        terminal has been created and added: one fewer pending, never below zero. */
    method TerminalAdded()
      modifies this`pendingTerminalsToAdd
      ensures pendingTerminalsToAdd == if old(pendingTerminalsToAdd) == 0 then 0 else old(pendingTerminalsToAdd) - 1
    {
      if pendingTerminalsToAdd > 0 {
        pendingTerminalsToAdd := pendingTerminalsToAdd - 1;
      }
    }

    /** The items of the active pane. */
    function ActivePaneItems(): seq<Item>
      reads this
      requires Valid()
    {
      center[IndexOf(PaneIds(center), activePane).value].items
    }

    /** `has_no_terminals`: the active pane is empty and no terminal is being
        added. Since pane ids are distinct, every pane with the active id is empty. */
    function HasNoTerminals(): (r: bool)
      reads this
      requires Valid()
      ensures r <==> pendingTerminalsToAdd == 0
                     && forall p :: 0 <= p < |center| && center[p].id == activePane ==> center[p].items == []
    {
      ActivePaneIsOnlyOne();
      |ActivePaneItems()| == 0 && pendingTerminalsToAdd == 0
    }

    /** The active pane is found at the one index that carries its id. */
    lemma ActivePaneIsOnlyOne()
      requires Valid()
      ensures forall p :: 0 <= p < |center| && center[p].id == activePane ==> center[p].items == ActivePaneItems()
    {
      var ids := PaneIds(center);
      var k := IndexOf(ids, activePane).value;
      forall p | 0 <= p < |center| && center[p].id == activePane ensures center[p].items == ActivePaneItems() {
        assert ids[p] == ids[k];
      }
    }

    /** `set_active`: activating the panel requests a terminal (a deferred
        `add_terminal`, itself refused when terminals are unsupported or the
        workspace is gone) exactly when it is activated, nothing is pending and
        the active pane is empty. */
    function OpensTerminalOnActivate(active: bool): (r: bool)
      reads this
      requires Valid()
      ensures r <==> active && pendingTerminalsToAdd == 0
                     && forall p :: 0 <= p < |center| && center[p].id == activePane ==> center[p].items == []
    {
      active && HasNoTerminals()
    }

    /** `icon`: never shown when the button setting is off; with it on, shown
        whenever the project supports terminals, and otherwise exactly when the
        panel still has terminals. */
    function ShowsIcon(enabled: bool, buttonSetting: bool): (r: bool)
      reads this
      requires Valid()
      ensures !buttonSetting ==> !r
      ensures buttonSetting && enabled ==> r
      ensures buttonSetting && !enabled ==> (r <==> !HasNoTerminals())
      ensures buttonSetting && pendingTerminalsToAdd > 0 ==> r
    {
      (enabled || !HasNoTerminals()) && buttonSetting
    }

    /** When the button carries no count, the active pane is empty: with nothing
        pending, the panel then has no terminals. */
    lemma NoLabelMeansNoTerminals()
      requires Valid()
      ensures IconLabel(center).None? ==> |ActivePaneItems()| == 0
      ensures IconLabel(center).None? && pendingTerminalsToAdd == 0 ==> HasNoTerminals()
    {
      TotalItemsBound(center, IndexOf(PaneIds(center), activePane).value);
    }
  }
}
