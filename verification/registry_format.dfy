/** The pure part of `context_menu/windows_menus.py`: the activation-type and
    command-variable tables, registry path joining, and the three builders of
    the command line a registry entry runs. `sys.executable` is the `exe`
    parameter. */
module WinCommands {
  import opened Wrappers
  import Strs

  const FileLoc: string := "Software\\Classes\\SystemFileAssociations"

  /** `CONTEXT_SHORTCUTS`: the registry path under which each activation type
      registers its entries. There is no `DESKTOP_BACKGROUND` entry. */
  const ContextShortcuts: map<string, string> := map[
    "FILELOC" := FileLoc,
    "FILES" := "Software\\Classes\\*\\shell",
    "DIRECTORY" := "Software\\Classes\\Directory\\shell",
    "DIRECTORY_BACKGROUND" := "Software\\Classes\\Directory\\Background\\shell",
    "DRIVE" := "Software\\Classes\\Drive\\shell",
    "DESKTOP" := "Software\\Classes\\DesktopBackground\\shell"
  ]

  /** `COMMAND_VARS`: the Python expression each command variable stands for. */
  const CommandVars: map<string, string> := map[
    "FILENAME" := "' '.join(sys.argv[1:]) ",
    "DIR" := "os.getcwd()",
    "DIRECTORY" := "os.getcwd()",
    "PYTHONLOC" := "sys.executable"
  ]

  /** The activation types whose callables get the current directory
      instead of the selected paths. */
  const BackgroundTypes: set<string> := {"DIRECTORY_BACKGROUND", "DESKTOP_BACKGROUND"}

  /** `join_keys`: the parts separated by single backslashes. */
  function JoinKeys(keys: seq<string>): (r: string)
    ensures |keys| == 0 ==> r == ""
    ensures |keys| > 0 ==> |r| == Sum(keys) + |keys| - 1
  {
    JoinKeysLength(keys);
    Strs.Join("\\", keys)
  }

  /** Joining adds exactly one backslash between neighbouring parts and
      nothing else: the length is the parts' total plus the separators, and
      splitting at backslashes gives the parts back when none holds one. */
  lemma JoinKeysAddsOnlySeparators(keys: seq<string>)
    requires |keys| > 0
    ensures |JoinKeys(keys)| == Sum(keys) + |keys| - 1
    ensures (forall i :: 0 <= i < |keys| ==> '\\' !in keys[i]) ==> Strs.Split(JoinKeys(keys), '\\') == keys
  {
    JoinKeysLength(keys);
    JoinKeysSplit(keys);
  }

  /** Total length of the parts. */
  function Sum(keys: seq<string>): nat {
    if |keys| == 0 then 0 else |keys[0]| + Sum(keys[1..])
  }

  lemma {:induction false} JoinKeysLength(keys: seq<string>)
    ensures |keys| > 0 ==> |Strs.Join("\\", keys)| == Sum(keys) + |keys| - 1
  {
    if |keys| > 1 {
      JoinKeysLength(keys[1..]);
    }
  }

  lemma JoinKeysSplit(keys: seq<string>)
    ensures |keys| > 0 && (forall i :: 0 <= i < |keys| ==> '\\' !in keys[i]) ==>
            Strs.Split(Strs.Join("\\", keys), '\\') == keys
  {
    if |keys| > 0 && (forall i :: 0 <= i < |keys| ==> '\\' !in keys[i]) {
      Strs.SplitJoin(keys, '\\');
    }
  }

  /** A two- and a three-part join, spelt out. */
  lemma JoinKeysParts(a: string, b: string, c: string)
    ensures JoinKeys([a, b]) == a + "\\" + b
    ensures JoinKeys([a, b, c]) == a + "\\" + b + "\\" + c
  {
    assert [a, b][1..] == [b];
    assert [a, b, c][1..] == [b, c];
    assert Strs.Join("\\", [b]) == b;
    assert Strs.Join("\\", [c]) == c;
    assert Strs.Join("\\", [b, c]) == b + "\\" + c;
  }

  /** `context_registry_format`: a type holding a `.` is a file extension,
      registered under its own `SystemFileAssociations` key; any other type
      is looked up, upper-cased, in `CONTEXT_SHORTCUTS`, and an unknown one
      raises `KeyError`. */
  function ContextRegistryFormat(activation: string): (r: Result<string>)
    ensures '.' in activation ==> r == Ok(FileLoc + "\\" + Strs.Lower(activation) + "\\" + "shell")
    ensures '.' !in activation ==> (r.Ok? <==> Strs.Upper(activation) in ContextShortcuts)
    ensures '.' !in activation && r.Ok? ==> r.value == ContextShortcuts[Strs.Upper(activation)]
    ensures r.Err? ==> r.error == KeyError(Strs.Upper(activation))
  {
    var item := Strs.Upper(activation);
    Strs.LowerOfUpper(activation);
    JoinKeysParts(FileLoc, Strs.Lower(item), "shell");
    if '.' in item then Ok(JoinKeys([FileLoc, Strs.Lower(item), "shell"]))
    else if item in ContextShortcuts then Ok(ContextShortcuts[item])
    else Err(KeyError(item))
  }

  /** The cases the tests and the table pin down. */
  lemma ContextRegistryFormatCases()
    ensures ContextRegistryFormat(".txt") == Ok("Software\\Classes\\SystemFileAssociations\\.txt\\shell")
    ensures ContextRegistryFormat("files") == Ok("Software\\Classes\\*\\shell")
    ensures ContextRegistryFormat("DESKTOP") == Ok("Software\\Classes\\DesktopBackground\\shell")
    ensures ContextRegistryFormat("DESKTOP_BACKGROUND") == Err(KeyError("DESKTOP_BACKGROUND"))
  {
    assert '.' in ".txt" by { assert ".txt"[0] == '.'; }
    assert Strs.Lower(".txt") == ".txt";
    assert FileLoc + "\\" + ".txt" + "\\" + "shell" == "Software\\Classes\\SystemFileAssociations\\.txt\\shell";
    assert Strs.Upper("files") == "FILES";
    assert Strs.Upper("DESKTOP") == "DESKTOP";
    assert Strs.Upper("DESKTOP_BACKGROUND") == "DESKTOP_BACKGROUND";
    assert '.' !in "files";
    assert '.' !in "DESKTOP";
    assert '.' !in "DESKTOP_BACKGROUND";
  }

  /** `command_var_format`: the expression of a variable, by its upper-cased
      name; an unknown variable raises `KeyError`. */
  function CommandVarFormat(v: string): (r: Result<string>)
    ensures r.Ok? <==> Strs.Upper(v) in CommandVars
    ensures r.Ok? ==> r.value == CommandVars[Strs.Upper(v)]
    ensures r.Err? ==> r.error == KeyError(Strs.Upper(v))
  {
    var key := Strs.Upper(v);
    if key in CommandVars then Ok(CommandVars[key]) else Err(KeyError(key))
  }

  /** A directory path with its backslashes turned into slashes. */
  function SlashPath(dir: string): (r: string)
    ensures |r| == |dir| && '\\' !in r
    ensures forall i :: 0 <= i < |dir| && dir[i] != '\\' ==> r[i] == dir[i]
  {
    Strs.ReplaceChar(dir, '\\', '/')
  }

  /** The command line shape both callable forms share: run `exe` on an
      inline script whose first statement puts the directory, with its
      backslashes turned into slashes, first on the module path; the script
      then imports the module and calls the function with a one-element list
      and the parameters. */
  function Invocation(exe: string, sysPrefix: string, dir: string, moduleName: string,
                      funcName: string, arg: string, params: string): string
  {
    "\"" + exe + "\" -c \"" + (sysPrefix + SlashPath(dir) + "')") + "; " + ("import " + moduleName) + "; "
    + (moduleName + "." + funcName + "([" + arg + "],'" + params + "')") + "\""
  }

  /** Replacing backslashes in a section whose fixed text has none touches
      only the directory. */
  lemma SysSectionSlashed(prefix: string, dir: string)
    requires '\\' !in prefix
    ensures Strs.ReplaceChar(prefix + dir + "')", '\\', '/') == prefix + SlashPath(dir) + "')"
  {
    Strs.ReplaceCharAppend(prefix + dir, "')", '\\', '/');
    Strs.ReplaceCharAppend(prefix, dir, '\\', '/');
    Strs.ReplaceCharAbsent(prefix, '\\', '/');
    Strs.ReplaceCharAbsent("')", '\\', '/');
  }

  const FileSelectSysPrefix: string := "import sys; sys.path.insert(0, '"
  const BackgroundSysPrefix: string := "import sys; import os; sys.path.insert(0, '"

  /** `create_file_select_command`: the callable gets the selected paths,
      and the selection is passed as `"%1"`. */
  function CreateFileSelectCommand(exe: string, funcName: string, fileName: string,
                                   dirPath: string, params: string): (r: string)
    ensures r == Invocation(exe, FileSelectSysPrefix, dirPath, fileName, funcName, CommandVars["FILENAME"], params)
                 + " \"%1\""
  {
    SysSectionSlashed(FileSelectSysPrefix, dirPath);
    var sysSection := Strs.ReplaceChar(FileSelectSysPrefix + dirPath + "')", '\\', '/');
    var fileSection := "import " + fileName;
    var dirArg := "' '.join(sys.argv[1:]) ";
    var funcSection := fileName + "." + funcName + "([" + dirArg + "],'" + params + "')";
    var pythonPortion := "\"" + exe + "\" -c \"" + sysSection + "; " + fileSection + "; " + funcSection + "\"";
    pythonPortion + " \"%1\""
  }

  /** `create_directory_background_command`: the callable gets the current
      directory, and no selection argument follows. */
  function CreateDirectoryBackgroundCommand(exe: string, funcName: string, fileName: string,
                                            dirPath: string, params: string): (r: string)
    ensures r == Invocation(exe, BackgroundSysPrefix, dirPath, fileName, funcName, CommandVars["DIR"], params)
  {
    SysSectionSlashed(BackgroundSysPrefix, dirPath);
    var sysSection := Strs.ReplaceChar(BackgroundSysPrefix + dirPath + "')", '\\', '/');
    var fileSection := "import " + fileName;
    var dirArg := "os.getcwd()";
    var funcSection := fileName + "." + funcName + "([" + dirArg + "],'" + params + "')";
    "\"" + exe + "\" -c \"" + sysSection + "; " + fileSection + "; " + funcSection + "\""
  }

  /** The file-selection form ends with the `"%1"` argument; the background
      form ends with the closing quote of the inline script. */
  lemma CallableSuffixes(exe: string, funcName: string, fileName: string, dirPath: string, params: string)
    ensures var r := CreateFileSelectCommand(exe, funcName, fileName, dirPath, params);
            |r| >= 5 && r[|r| - 5..] == " \"%1\""
    ensures var r := CreateDirectoryBackgroundCommand(exe, funcName, fileName, dirPath, params);
            |r| >= 3 && r[|r| - 3..] == "')\""
  {
  }

  /** The expression a `?` becomes. */
  function Spliced(expr: string): string {
    "' + " + expr + " + '"
  }

  /** The list comprehension of `create_shell_command`: every variable is
      looked up, in order, before any substitution, so an unknown variable
      raises `KeyError` even when it would not be used. */
  function TransformVars(vars: seq<string>): (r: Result<seq<string>>)
    ensures r.Ok? <==> forall i :: 0 <= i < |vars| ==> Strs.Upper(vars[i]) in CommandVars
    ensures r.Ok? ==> |r.value| == |vars|
    ensures r.Ok? ==> forall i :: 0 <= i < |vars| ==> r.value[i] == Spliced(CommandVars[Strs.Upper(vars[i])])
    ensures r.Err? ==> r.error.KeyError?
  {
    if |vars| == 0 then Ok([])
    else
      var v :- CommandVarFormat(vars[0]);
      var rest :- TransformVars(vars[1..]);
      Ok([Spliced(v)] + rest)
  }

  /** `command.replace("?", "{}").format(*reps)` for a command without
      braces: each `?`, left to right, takes the next replacement; too few
      replacements raise `IndexError`, extra ones are ignored. */
  function Substitute(cmd: string, reps: seq<string>): (r: Result<string>)
    ensures r.Ok? <==> Strs.CountChar(cmd, '?') <= |reps|
    ensures r.Err? ==> r.error.IndexError?
  {
    if |cmd| == 0 then Ok("")
    else if cmd[0] == '?' then
      if |reps| == 0 then Err(IndexError("Replacement index out of range for positional args tuple"))
      else
        var rest :- Substitute(cmd[1..], reps[1..]);
        Ok(reps[0] + rest)
    else
      var rest :- Substitute(cmd[1..], reps);
      Ok([cmd[0]] + rest)
  }

  /** The pieces of a text, with the replacements between them in order. */
  function Weave(pieces: seq<string>, reps: seq<string>): string
    requires |pieces| >= 1 && |reps| >= |pieces| - 1
  {
    if |pieces| == 1 then pieces[0]
    else pieces[0] + reps[0] + Weave(pieces[1..], reps[1..])
  }

  lemma WeaveConsChar(c: char, pieces: seq<string>, reps: seq<string>)
    requires |pieces| >= 1 && |reps| >= |pieces| - 1
    ensures Weave([[c] + pieces[0]] + pieces[1..], reps) == [c] + Weave(pieces, reps)
  {
    var w := [[c] + pieces[0]] + pieces[1..];
    if |pieces| > 1 {
      assert w[1..] == pieces[1..];
    }
  }

  /** Substitution is the text split at its `?`s with the replacements
      woven in between, in order. */
  lemma {:induction false} SubstituteWeaves(cmd: string, reps: seq<string>)
    requires Strs.CountChar(cmd, '?') <= |reps|
    ensures Substitute(cmd, reps) == Ok(Weave(Strs.Split(cmd, '?'), reps))
  {
    if |cmd| > 0 {
      var pieces := Strs.Split(cmd[1..], '?');
      if cmd[0] == '?' {
        SubstituteWeaves(cmd[1..], reps[1..]);
        assert Strs.Split(cmd, '?') == [""] + pieces;
        assert ([""] + pieces)[1..] == pieces;
        assert Weave([""] + pieces, reps) == "" + reps[0] + Weave(pieces, reps[1..]);
        assert "" + reps[0] == reps[0];
      } else {
        SubstituteWeaves(cmd[1..], reps);
        WeaveConsChar(cmd[0], pieces, reps);
      }
    }
  }

  /** Replacements beyond the number of `?`s make no difference. */
  lemma {:induction false} SubstituteIgnoresExtra(cmd: string, reps: seq<string>, extra: seq<string>)
    requires Strs.CountChar(cmd, '?') <= |reps|
    ensures Substitute(cmd, reps + extra) == Substitute(cmd, reps)
  {
    if |cmd| > 0 {
      if cmd[0] == '?' {
        assert (reps + extra)[1..] == reps[1..] + extra;
        SubstituteIgnoresExtra(cmd[1..], reps[1..], extra);
      } else {
        SubstituteIgnoresExtra(cmd[1..], reps, extra);
      }
    }
  }

  /** A command without braces. */
  predicate BraceFree(cmd: string) {
    '{' !in cmd && '}' !in cmd
  }

  /** `create_shell_command`: run `exe` on an inline script that passes the
      substituted command to `os.system`, with the selection as `"%1"`. */
  function CreateShellCommand(exe: string, command: string, vars: seq<string>): (r: Result<string>)
    requires BraceFree(command)
    ensures r.Ok? <==> (forall i :: 0 <= i < |vars| ==> Strs.Upper(vars[i]) in CommandVars)
                       && Strs.CountChar(command, '?') <= |vars|
    ensures r.Ok? ==> r.value == "\"" + exe + "\" -c \""
                            + ("import os; import sys; os.system('" + Weave(Strs.Split(command, '?'), TransformVars(vars).value) + "')")
                            + "\" \"%1\""
  {
    var transformed :- TransformVars(vars);
    var newCommand :- Substitute(command, transformed);
    SubstituteWeaves(command, transformed);
    var pythonSection := "import os; import sys; os.system('" + newCommand + "')";
    Ok("\"" + exe + "\" -c \"" + pythonSection + "\" \"%1\"")
  }
}
