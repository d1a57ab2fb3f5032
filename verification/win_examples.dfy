/** The fast command against the mock's checks, the choice between the two
    callable forms, and the cases of `tests/test_windows.py` worked through
    the model. */
module WinExamples {
  import opened Wrappers
  import Strs
  import opened MenuTree
  import opened RegistryStore
  import opened WinCommands
  import opened WinKeys
  import opened WinMenus
  import opened WinProofs

  /** `FastRegistryCommand.compile()` with a command line, on a registry
      where its key is new or still has an empty default, passes
      `assert_fast_command` (with the icon when there is one): the command
      line is the subkey's default and the key's own default stays empty. */
  lemma FastAsserted(s: Store, fc: FastCommand, exe: string)
    requires fc.command.Some? && fc.commandVars.Some? ==> BraceFree(fc.command.value)
    requires ContextRegistryFormat(fc.activation).Ok?
    requires CommandText(exe, fc.activation in BackgroundTypes, fc.command, fc.python,
                         fc.params, fc.commandVars, NoCallable).Ok?
    requires var key := Key(ContextRegistryFormat(fc.activation).value, fc.name);
             key !in s || GetKeyValue(s, key, "") == Some("")
    ensures FastCompile(s, fc, exe).Ok?
    ensures var path := ContextRegistryFormat(fc.activation).value;
            var text := CommandText(exe, fc.activation in BackgroundTypes, fc.command, fc.python,
                                    fc.params, fc.commandVars, NoCallable).value;
            var st := FastCompile(s, fc, exe).value;
            if fc.icon.Some? then FastCommandWithIconAsserted(st, path, fc.name, text, fc.icon.value)
            else FastCommandAsserted(st, path, fc.name, text)
  {
    var path := ContextRegistryFormat(fc.activation).value;
    var text := CommandText(exe, fc.activation in BackgroundTypes, fc.command, fc.python,
                            fc.params, fc.commandVars, NoCallable).value;
    FastKeysRead(s, Key(path, fc.name), text, fc.icon);
  }

  /** What the mock reads from the two keys a fast command writes: the key's
      default stays empty, the icon is on the key, the command line is the
      subkey's default. */
  lemma FastKeysRead(s: Store, key: string, text: string, icon: Option<string>)
    requires key !in s || GetKeyValue(s, key, "") == Some("")
    ensures var st := s[key := ValuesOf(s, key) + IconAttr(icon)][Key(key, "command") := ValuesOf(s, Key(key, "command"))["" := text]];
            && GetKeyValue(st, key, "") == Some("")
            && GetKeyValue(st, Key(key, "command"), "") == Some(text)
            && (icon.Some? ==> GetKeyValue(st, key, "Icon") == Some(icon.value))
  {
    assert Key(key, "command") != key by { assert |Key(key, "command")| > |key|; }
  }

  /** A fast command with neither a command nor a callable fails the way
      `inspect.getfile(None)` does, after its two keys are created. */
  lemma FastWithoutCallable(s: Store, fc: FastCommand, exe: string)
    requires fc.command.None? && fc.python.None?
    requires ContextRegistryFormat(fc.activation).Ok?
    ensures FastCompile(s, fc, exe) == Err(NoCallable)
  {
  }

  /** In a tree, a command with neither a command nor a callable stops the
      walk with the `assert` of `get_method_info`. */
  lemma WalkWithoutCallable(s: Store, name: string, params: string, vars: Option<seq<string>>,
                            icon: Option<string>, path: string, ctx: Ctx)
    ensures WalkItem(s, Command(name, None, None, params, vars, icon), path, ctx) == Err(AssertionError)
  {
  }

  /** The menu compile picks the background form on the upper-cased type,
      so `directory_background` in any case gets it; the fast command tests
      the type as given, so only the upper-case spelling does. `DESKTOP`
      gets the file-selection form, and `DESKTOP_BACKGROUND`, although it is
      in the list of background types, is not a known type at all. */
  lemma BackgroundChoice(icon: Option<string>, exe: string)
    ensures RootCtx("directory_background", icon, exe).background
    ensures RootCtx("DIRECTORY_BACKGROUND", icon, exe).background
    ensures "directory_background" !in BackgroundTypes
    ensures "DIRECTORY_BACKGROUND" in BackgroundTypes
    ensures !RootCtx("DESKTOP", icon, exe).background
    ensures !RootCtx("FILES", icon, exe).background
    ensures ContextRegistryFormat("directory_background") == Ok("Software\\Classes\\Directory\\Background\\shell")
    ensures ContextRegistryFormat("DESKTOP_BACKGROUND").Err?
  {
    UpperBackground();
    UpperPlain();
    ContextRegistryFormatCases();
  }

  /** Both spellings of the background type upper-case alike. */
  lemma UpperBackground()
    ensures Strs.Upper("directory_background") == "DIRECTORY_BACKGROUND"
    ensures Strs.Upper("DIRECTORY_BACKGROUND") == "DIRECTORY_BACKGROUND"
    ensures '.' !in "directory_background"
  {
    UpperLowerBackground();
    UpperUpperBackground();
  }

  lemma UpperLowerBackground()
    ensures Strs.Upper("directory_background") == "DIRECTORY_BACKGROUND"
  {
  }

  lemma UpperUpperBackground()
    ensures Strs.Upper("DIRECTORY_BACKGROUND") == "DIRECTORY_BACKGROUND"
  {
  }

  lemma UpperPlain()
    ensures Strs.Upper("DESKTOP") == "DESKTOP" && Strs.Upper("FILES") == "FILES"
  {
  }

  /** The pieces of `echo ?` around its `?`. */
  lemma SplitEcho()
    ensures Strs.Split("echo ?", '?') == ["echo ", ""]
  {
    assert "echo ?" == "echo " + "?";
    Strs.SplitPrefix("echo ", "?", '?');
    assert "?"[1..] == "";
    assert Strs.Split("?", '?') == ["", ""];
    assert "echo " + "" == "echo ";
  }

  /** The `FILENAME` variable and the expression it is spliced in as. */
  lemma UpperFilename()
    ensures Strs.Upper("FILENAME") == "FILENAME"
  {
  }

  lemma FilenameVar()
    ensures CommandVarFormat("FILENAME") == Ok("' '.join(sys.argv[1:]) ")
  {
    UpperFilename();
  }

  lemma SplicedFilename()
    ensures Spliced("' '.join(sys.argv[1:]) ") == "' + ' '.join(sys.argv[1:])  + '"
  {
  }

  lemma TransformFilename()
    ensures TransformVars(["FILENAME"]) == Ok(["' + ' '.join(sys.argv[1:])  + '"])
  {
    FilenameVar();
    SplicedFilename();
    assert ["FILENAME"][1..] == [];
    var t := "' + ' '.join(sys.argv[1:])  + '";
    assert [t] + [] == [t];
  }

  lemma WeaveEcho()
    ensures Weave(["echo ", ""], ["' + ' '.join(sys.argv[1:])  + '"]) == "echo ' + ' '.join(sys.argv[1:])  + '"
  {
    WeaveOne("echo ", "' + ' '.join(sys.argv[1:])  + '");
  }

  /** One placeholder at the end: the replacement follows the text. */
  lemma WeaveOne(a: string, t: string)
    ensures Weave([a, ""], [t]) == a + t
  {
    assert [a, ""][1..] == [""];
    assert Weave([""], []) == "";
    assert a + t + "" == a + t;
  }

  /** The shell form of `echo ?` with the `FILENAME` variable: the `?`
      becomes the joined selection, spliced into the `os.system` text. */
  lemma ShellCommandExample(exe: string)
    ensures CreateShellCommand(exe, "echo ?", ["FILENAME"])
            == Ok("\"" + exe + "\" -c \""
                  + ("import os; import sys; os.system('" + "echo ' + ' '.join(sys.argv[1:])  + '" + "')")
                  + "\" \"%1\"")
  {
    SplitEcho();
    TransformFilename();
    WeaveEcho();
    assert Strs.CountChar("echo ?", '?') == 1;
  }

  /** An empty `FILES` menu with an icon, compiled on an empty registry,
      passes `assert_context_menu_with_icon`. */
  lemma ContextMenuExample(icon: string, exe: string)
    ensures RegistryCompile(map[], "Test", [], "FILES", Some(icon), exe).Ok?
    ensures ContextMenuWithIconAsserted(RegistryCompile(map[], "Test", [], "FILES", Some(icon), exe).value,
                                        "Software\\Classes\\*\\shell", "Test", icon)
  {
    ContextRegistryFormatCases();
    assert Strs.Upper("FILES") == Strs.Upper("files");
    var root := Root("Test", [], "FILES", Some(icon));
    assert root[1..] == [];
    CompileMirrored(map[], "Test", [], "FILES", Some(icon), exe);
  }

  /** The checks of a menu holding one command, unfolded: the menu's own
      check, and the command's under the menu's `shell` key. */
  lemma OneCommandMirrored(st: Store, path: string, name: string, menuType: Option<string>,
                           menuIcon: Option<string>, item: Item, ctx: Ctx)
    requires item.Command?
    requires CommandsBraceFree([item]) && Resolvable([item], ctx)
    requires CommandsBraceFree([Menu(name, [item], menuType, menuIcon)])
    requires Resolvable([Menu(name, [item], menuType, menuIcon)], ctx)
    requires Mirrored(st, [Menu(name, [item], menuType, menuIcon)], path, ctx)
    ensures MenuAsserted(st, path, name, ctx.rootIcon)
    ensures CommandAsserted(st, Key(Key(path, name), "shell"), item.name,
                            CommandText(ctx.exe, ctx.background, item.command, item.python, item.params,
                                        item.commandVars, AssertionError).value, item.icon)
  {
    var menu := Menu(name, [item], menuType, menuIcon);
    assert [menu][1..] == [] && [item][1..] == [];
    assert MirroredItem(st, menu, path, ctx);
    assert Mirrored(st, [item], Key(Key(path, name), "shell"), ctx);
    assert MirroredItem(st, item, Key(Key(path, name), "shell"), ctx);
  }

  /** A root menu holding one command is well named and resolvable when
      the command is. */
  lemma OneCommandRoot(name: string, item: Item, activation: string, icon: Option<string>, ctx: Ctx)
    requires item.Command? && '\\' !in name && '\\' !in item.name
    requires CommandsBraceFree([item]) && Resolvable([item], ctx)
    ensures CommandsBraceFree(Root(name, [item], activation, icon))
    ensures Resolvable(Root(name, [item], activation, icon), ctx)
    ensures WellNamed(Root(name, [item], activation, icon))
  {
    assert [item][1..] == [];
    assert WellNamed([item]);
    assert Root(name, [item], activation, icon)[1..] == [];
  }

  lemma FilesFormat()
    ensures ContextRegistryFormat("FILES") == Ok("Software\\Classes\\*\\shell")
  {
    assert Strs.Upper("FILES") == "FILES";
  }

  /** A `FILES` menu holding one plain command, compiled on an empty
      registry, passes `assert_context_menu` for the menu and
      `assert_context_command` for the command under the menu's `shell`
      key (with the command's icon when it has one). */
  lemma ContextCommandExample(command: string, icon: Option<string>, exe: string)
    ensures var items := [Command("Command", Some(command), None, "", None, icon)];
            var r := RegistryCompile(map[], "Test", items, "FILES", None, exe);
            && r.Ok?
            && ContextMenuAsserted(r.value, "Software\\Classes\\*\\shell", "Test")
            && (if icon.Some?
                then ContextCommandWithIconAsserted(r.value, "Software\\Classes\\*\\shell\\Test\\shell",
                                                    "Command", command, icon.value)
                else ContextCommandAsserted(r.value, "Software\\Classes\\*\\shell\\Test\\shell", "Command", command))
  {
    FilesFormat();
    ExampleNames();
    PlainCommandCompiled("Test", "Command", command, icon, "FILES", exe);
    TestShellKey();
  }

  /** The names of the test menu and its command hold no backslash. */
  lemma ExampleNames()
    ensures '\\' !in "Test" && '\\' !in "Command"
  {
  }

  /** The `shell` key of the test menu under the `FILES` path. */
  lemma TestShellKey()
    ensures Key(Key("Software\\Classes\\*\\shell", "Test"), "shell") == "Software\\Classes\\*\\shell\\Test\\shell"
  {
  }

  /** A root menu holding one plain command, compiled on an empty registry
      for any known type: the menu and the command pass their checks. */
  lemma PlainCommandCompiled(name: string, cmdName: string, command: string, icon: Option<string>,
                             activation: string, exe: string)
    requires '\\' !in name && '\\' !in cmdName
    requires ContextRegistryFormat(activation).Ok?
    ensures var path := ContextRegistryFormat(activation).value;
            var r := RegistryCompile(map[], name, [Command(cmdName, Some(command), None, "", None, icon)],
                                     activation, None, exe);
            && r.Ok?
            && MenuAsserted(r.value, path, name, None)
            && CommandAsserted(r.value, Key(Key(path, name), "shell"), cmdName, command, icon)
  {
    var path := ContextRegistryFormat(activation).value;
    var item := Command(cmdName, Some(command), None, "", None, icon);
    var ctx := RootCtx(activation, None, exe);
    assert [item][1..] == [];
    assert CommandsBraceFree([item]) && Resolvable([item], ctx);
    OneCommandRoot(name, item, activation, None, ctx);
    CompileMirrored(map[], name, [item], activation, None, exe);
    var st := RegistryCompile(map[], name, [item], activation, None, exe).value;
    OneCommandMirrored(st, path, name, Some(activation), None, item, ctx);
  }

  /** `FastCommand("Test", ".txt", command="echo hello").compile()` on an
      empty registry passes `assert_fast_command` under the `.txt` key. */
  lemma FastTxtExample(exe: string)
    ensures var fc := FastCommand("Test", ".txt", Some("echo hello"), None, "", None, None);
            && FastCompile(map[], fc, exe).Ok?
            && FastCommandAsserted(FastCompile(map[], fc, exe).value,
                                   "Software\\Classes\\SystemFileAssociations\\.txt\\shell", "Test", "echo hello")
  {
    ContextRegistryFormatCases();
    var fc := FastCommand("Test", ".txt", Some("echo hello"), None, "", None, None);
    FastAsserted(map[], fc, exe);
  }

  /** The default values `create_command` leaves, whatever the keys held. */
  lemma CommandDefaults(s: Store, name: string, path: string, text: string, icon: Option<string>)
    ensures GetKeyValue(CreateCommand(s, name, path, text, icon), Key(path, name), "") == Some(name)
    ensures GetKeyValue(CreateCommand(s, name, path, text, icon), Key(Key(path, name), "command"), "") == Some(text)
  {
    var key := Key(path, name);
    assert Key(key, "command") != key by { assert |Key(key, "command")| > |key|; }
  }

  /** Two sibling commands with the same name share their keys: afterwards
      the keys' default values are those the second one alone would have
      written. */
  lemma DuplicateCommandLastWins(s: Store, first: Item, second: Item, path: string, ctx: Ctx)
    requires first.Command? && second.Command? && first.name == second.name
    requires CommandsBraceFree([first]) && Resolvable([first], ctx)
    requires CommandsBraceFree([second]) && Resolvable([second], ctx)
    ensures CommandsBraceFree([first, second]) && Resolvable([first, second], ctx)
    ensures var r := WalkItems(s, [first, second], path, ctx).value;
            var alone := WalkItem(s, second, path, ctx).value;
            var key := Key(path, second.name);
            && GetKeyValue(r, key, "") == GetKeyValue(alone, key, "") == Some(second.name)
            && GetKeyValue(r, Key(key, "command"), "") == GetKeyValue(alone, Key(key, "command"), "")
  {
    var items := [first, second];
    assert items[1..] == [second] && [second][1..] == [] && items[0] == first;
    var t1 := CommandText(ctx.exe, ctx.background, first.command, first.python, first.params,
                          first.commandVars, AssertionError).value;
    var t2 := CommandText(ctx.exe, ctx.background, second.command, second.python, second.params,
                          second.commandVars, AssertionError).value;
    var s1 := CreateCommand(s, first.name, path, t1, first.icon);
    assert WalkItem(s, first, path, ctx) == Ok(s1);
    assert WalkItems(s, items, path, ctx) == WalkItems(s1, [second], path, ctx);
    assert WalkItem(s1, second, path, ctx) == Ok(CreateCommand(s1, second.name, path, t2, second.icon));
    assert WalkItems(s1, [second], path, ctx) == Ok(CreateCommand(s1, second.name, path, t2, second.icon));
    assert WalkItem(s, second, path, ctx) == Ok(CreateCommand(s, second.name, path, t2, second.icon));
    CommandDefaults(s1, second.name, path, t2, second.icon);
    CommandDefaults(s, second.name, path, t2, second.icon);
  }
}
