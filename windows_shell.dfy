/** The Windows helpers of the terminal panel: which kind of shell a program
    is, and how a `$VAR` / `${VAR}` task argument is rewritten for it. */
module WindowsShell {
  import opened Strings

  datatype WindowsShellType = Powershell | Cmd | Other

  /** The PowerShell test of `to_windows_shell_type`. */
  predicate IsPowershell(shell: string) {
    shell == "powershell" || EndsWith(shell, "powershell.exe")
    || shell == "pwsh" || EndsWith(shell, "pwsh.exe")
  }

  /** The cmd test of `to_windows_shell_type`. */
  predicate IsCmd(shell: string) {
    shell == "cmd" || EndsWith(shell, "cmd.exe")
  }

  /** `to_windows_shell_type`: the PowerShell test is made first, then the cmd test. */
  function ToWindowsShellType(shell: string): (t: WindowsShellType)
    ensures t == Powershell <==> IsPowershell(shell)
    ensures t == Cmd <==> !IsPowershell(shell) && IsCmd(shell)
    ensures t == Other <==> !IsPowershell(shell) && !IsCmd(shell)
  {
    if IsPowershell(shell) then Powershell
    else if IsCmd(shell) then Cmd
    else Other
  }

  /** No program passes both tests, so the order in which they are made never decides. */
  lemma ShellTestsDisjoint(shell: string)
    ensures !(IsPowershell(shell) && IsCmd(shell))
  {
    var n := |shell|;
    assert EndsWith(shell, "cmd.exe") ==> shell[n - 7] == 'c';
    assert EndsWith(shell, "pwsh.exe") ==> shell[n - 7] == 'w';
    assert EndsWith(shell, "powershell.exe") ==> shell[n - 7] == 'e';
  }

  /** Programs named by a path are classified by the executable's file name. */
  lemma ExecutablePathsClassified(dir: string)
    ensures ToWindowsShellType(dir + "powershell.exe") == Powershell
    ensures ToWindowsShellType(dir + "pwsh.exe") == Powershell
    ensures ToWindowsShellType(dir + "cmd.exe") == Cmd
  {
    var ps, pw, cm := dir + "powershell.exe", dir + "pwsh.exe", dir + "cmd.exe";
    assert ps[|ps| - 14..] == "powershell.exe";
    assert pw[|pw| - 8..] == "pwsh.exe";
    assert cm[|cm| - 7..] == "cmd.exe";
    ShellTestsDisjoint(cm);
  }

  /** Bare program names, and a program whose name only resembles a shell. */
  lemma BareNamesClassified()
    ensures ToWindowsShellType("powershell") == Powershell
    ensures ToWindowsShellType("pwsh") == Powershell
    ensures ToWindowsShellType("cmd") == Cmd
    ensures ToWindowsShellType("bash") == Other
    ensures ToWindowsShellType("cmd.com") == Other
  {
    assert !EndsWith("cmd.com", "cmd.exe") by { assert "cmd.com"[6] != "cmd.exe"[6]; }
    assert !EndsWith("bash", "cmd.exe");
  }

  // ---------------------------------------------------------------------------
  // Variable conversion
  // ---------------------------------------------------------------------------

  /** The inputs on which `to_cmd_variable` and `to_powershell_variable` panic:
      after an opening `${` with no `:` following, they cut the last byte off the
      rest with `var_str[..var_str.len() - 1]`. That subtraction underflows when
      nothing follows `${`, and the slice falls inside a character when the
      last character takes more than one byte in UTF-8 (code point 0x80 or above). */
  predicate ConversionPanics(input: string) {
    StartsWith(input, "${") && ':' !in input[2..]
    && (|input| == 2 || input[|input| - 1] as int >= 0x80)
  }

  /** `to_powershell_variable`: `$V` and `${V}` become `$env:V`. */
  function ToPowershellVariable(input: string): (r: string)
    requires !ConversionPanics(input)
    ensures !StartsWith(input, "$") ==> r == input
    ensures StartsWith(input, "${") && ':' in input[2..] ==> r == input
    ensures StartsWith(input, "$") && !StartsWith(input, "${") ==> r == "$env:" + input[1..]
    ensures r == input || StartsWith(r, "$env:")
  {
    if StartsWith(input, "${") then
      var varStr := input[2..];
      if ':' !in varStr then "$env:" + varStr[..|varStr| - 1] else input
    else if StartsWith(input, "$") then "$env:" + input[1..]
    else input
  }

  /** `to_cmd_variable`: `$V` and `${V}` become `%V%`. */
  function ToCmdVariable(input: string): (r: string)
    requires !ConversionPanics(input)
    ensures !StartsWith(input, "$") ==> r == input
    ensures StartsWith(input, "${") && ':' in input[2..] ==> r == input
    ensures StartsWith(input, "$") && !StartsWith(input, "${") ==> r == "%" + input[1..] + "%"
    ensures r == input || (StartsWith(r, "%") && EndsWith(r, "%"))
  {
    if StartsWith(input, "${") then
      var varStr := input[2..];
      if ':' !in varStr then "%" + varStr[..|varStr| - 1] + "%" else input
    else if StartsWith(input, "$") then "%" + input[1..] + "%"
    else input
  }

  /** Whether `to_windows_shell_variable` would panic for this kind of shell. */
  predicate PanicsFor(kind: WindowsShellType, input: string) {
    kind != Other && ConversionPanics(input)
  }

  /** `to_windows_shell_variable`. */
  function ToWindowsShellVariable(kind: WindowsShellType, input: string): (r: string)
    requires !PanicsFor(kind, input)
    ensures kind == Other ==> r == input
    ensures r != input ==> StartsWith(input, "$") && !(StartsWith(input, "${") && ':' in input[2..])
  {
    match kind
    case Powershell => ToPowershellVariable(input)
    case Cmd => ToCmdVariable(input)
    case Other => input
  }

  /** `$NAME` (not followed by `{`) becomes `$env:NAME` and `%NAME%`. */
  lemma DollarVariable(name: string)
    requires !StartsWith(name, "{")
    ensures !ConversionPanics("$" + name)
    ensures ToPowershellVariable("$" + name) == "$env:" + name
    ensures ToCmdVariable("$" + name) == "%" + name + "%"
  {
    var input := "$" + name;
    assert input[1..] == name;
    assert StartsWith(input, "$");
    assert StartsWith(input, "${") ==> StartsWith(name, "{") by {
      if |name| >= 1 { assert name[..1] == input[1..2]; }
    }
  }

  /** `${NAME}` with no `:` in NAME becomes `$env:NAME` and `%NAME%`. */
  lemma BracedVariable(name: string)
    requires ':' !in name
    ensures !ConversionPanics("${" + name + "}")
    ensures ToPowershellVariable("${" + name + "}") == "$env:" + name
    ensures ToCmdVariable("${" + name + "}") == "%" + name + "%"
  {
    var input := "${" + name + "}";
    assert input[..2] == "${";
    var varStr := input[2..];
    assert varStr == name + "}";
    assert ':' !in varStr;
    assert varStr[..|varStr| - 1] == name;
  }

  /** After `${`, whatever follows loses its last character, whichever ASCII character it is, `}` or not. */
  lemma BracedDropsLastCharacter(rest: string)
    requires rest != [] && ':' !in rest && rest[|rest| - 1] as int < 0x80
    ensures !ConversionPanics("${" + rest)
    ensures ToPowershellVariable("${" + rest) == "$env:" + rest[..|rest| - 1]
    ensures ToCmdVariable("${" + rest) == "%" + rest[..|rest| - 1] + "%"
  {
    var input := "${" + rest;
    assert input[..2] == "${";
    assert input[2..] == rest;
  }

  /** `${NAME:-DEFAULT}` forms are left alone by both conversions. */
  lemma BracedWithDefaultUnchanged(name: string, default: string)
    ensures !ConversionPanics("${" + name + ":" + default)
    ensures ToPowershellVariable("${" + name + ":" + default) == "${" + name + ":" + default
    ensures ToCmdVariable("${" + name + ":" + default) == "${" + name + ":" + default
  {
    var input := "${" + name + ":" + default;
    assert input[..2] == "${";
    assert input[2..][|name|] == ':';
  }

  /** Both conversions rewrite exactly the same inputs: the two shells agree on
      which arguments are variable references. */
  lemma ConversionsAgree(input: string)
    requires !ConversionPanics(input)
    ensures ToPowershellVariable(input) != input <==> ToCmdVariable(input) != input
    ensures ToPowershellVariable(input) != input
        <==> StartsWith(input, "$") && !(StartsWith(input, "${") && ':' in input[2..])
  {
  }
}
