# context_menu in Dafny

`context_menu` is a Python library for adding entries to the right-click
menu of the desktop file manager. A user builds a tree:

- a `ContextMenu` holds `ContextCommand`s and further menus;
- a `FastCommand` is a single entry.

Calling `compile()` hands the tree to the backend of the running platform:

- **Windows:** the backend writes the tree into the registry under the
  path of the activation type (`FILES`, `DIRECTORY`,
  `DIRECTORY_BACKGROUND`, `DRIVE`, `DESKTOP` or a file extension such as
  `.txt`).
- **Linux:** it generates the Python source of a Nautilus extension and
  writes it into the user's extension directory.

`removeMenu` deletes a menu's registry key again.

This project models that core as pure functions over immutable data and
proves what the code promises:

- **Menu tree** (`tree.dfy`, module `MenuTree`). It covers:
  - the constructors of `context_menu/menus.py`, including the `ValueError`
    raised for a command that has both a shell command and a callable;
  - `add_items`.
- **Registry** (`registry_store.dfy`, `RegistryStore`). The registry is a map
  from key path to named values, as the in-memory registry of
  `context_menu/pytest_plugin.py` (`MockedWinReg`) keeps it. The module also
  holds:
  - the mock's `assert_*` checks, as predicates;
  - the key hierarchy that a real registry derives from these paths.
- **Windows command lines** (`registry_format.dfy`, `WinCommands`):
  - the type and variable tables;
  - `join_keys` and `context_registry_format`;
  - the three command-line builders, with the `?` substitution of
    `create_shell_command`.
- **Windows writers** (`registry_keys.dfy`, `WinKeys`; `registry_menu.dfy`,
  `WinMenus`):
  - `create_menu` and `create_command`;
  - the recursive `RegistryMenu.compile`;
  - `FastRegistryCommand.compile`.
- **Windows removal** (`registry_delete.dfy`, `WinDelete`):
  - the recursive `delete_key`;
  - `remove_windows_menu`.
- **Windows proofs** (`win_proofs.dfy`, `WinProofs`). There is a reference
  map of the keys a tree should produce. On a registry that holds nothing
  under the tree's names:
  - compiling adds exactly that map;
  - every menu and command of the tree then passes the mock's checks.
- **Windows examples** (`win_examples.dfy`, `WinExamples`): the cases of
  `tests/test_windows.py`, and the corner cases of the Windows backend.
- **Linux templates** (`linux_code.dfy`, `LinuxCode`):
  - the `ExistingCode` templates;
  - the names the counter of `NautilusMenu` gives;
  - the generated statements, kept as a small syntax tree that renders to
    the exact text the source emits.
- **Linux file layout** (`code_builder.dfy`, `CodeBuilder`): `CodeBuilder`,
  which lays out the generated file.
- **Linux tree walk** (`nautilus.dfy`, `Nautilus`):
  - the walk `build_script_body`;
  - `build_script`;
  - where `compile()` writes the file.
- **Linux proofs** (`nautilus_proofs.dfy`, `NautilusProofs`). They cover
  the generated extension:
  - each counter value names exactly one variable or handler;
  - every statement refers only to variables declared before it;
  - every command gets its own handler, of its kind;
  - the k-th `connect` links the item declared with the k-th command's
    caption to the k-th handler;
  - the generated file holds every handler, and an `import` and a
    `sys.path.append` line for every callable's module and directory.
- **Linux example** (`linux_examples.dfy`, `LinuxExamples`): the one-command
  menu listed in `tests/test_linux.py`.
- **Entry points** (`menus.dfy`, `Menus`): `ContextMenu.compile`,
  `FastCommand.compile` and `removeMenu`, dispatched on the platform.

Anything the running process supplies is an input of the model:

- the platform;
- the registry;
- the interpreter path (`sys.executable`);
- the user's home directory;
- what reflection reports about a callable (`get_method_info`, modelled as
  the triple `PyFunc`).

## Model

| member | source | states |
|---|---|---|
| `Strs.Upper` | context_menu/windows_menus.py:191 | Same length as the input. Every character is mapped through the upper-case table. |
| `Strs.Lower` | context_menu/windows_menus.py:193 | Same length as the input. Every character is mapped through the lower-case table. |
| `Strs.LowerOfUpper` | context_menu/windows_menus.py:191-193 | Lower-casing the upper-cased type is lower-casing the type. A character that case mapping leaves alone, such as `.`, is in the upper-cased type exactly when it is in the type. |
| `Strs.ReplaceChar` | context_menu/windows_menus.py:223-225 | Same length as the input. Each occurrence of the character is replaced. Every other character stays in place. |
| `Strs.Split` | context_menu/windows_menus.py:269 | One more piece than the text has separators. No piece holds the separator. |
| `Strs.SplitJoin` | context_menu/linux_menus.py:82-83 | Splitting a joined list at the separator gives the parts back, when no part holds the separator. |
| `Strs.JoinSplit` | context_menu/windows_menus.py:269 | Joining the pieces of a split with the separator gives the text back. |
| `Strs.NatToString` | context_menu/linux_menus.py:178 | The counter's text is non-empty and all decimal digits. It has at least two digits from ten on. |
| `Strs.NatToStringInjective` | context_menu/linux_menus.py:188 | Distinct counter values format to distinct texts. |
| `Strs.BeforeFirstOf` | context_menu/linux_menus.py:181 | `split(' = ')[0]` of a declaration is the name before the separator, when the name cannot start the separator. |
| `MenuTree.NewContextMenu` | context_menu/menus.py:26-35 | A menu with the given name, type and icon. It has no items yet. |
| `MenuTree.NewContextCommand` | context_menu/menus.py:69-90 | `ValueError` exactly when both a shell command and a callable are given. Otherwise a leaf holding exactly the arguments. |
| `MenuTree.NewFastCommand` | context_menu/menus.py:123-142 | The same validation as a command. Otherwise the fast command holds exactly the arguments. |
| `MenuTree.AddItems` | context_menu/menus.py:37-41 | The old items come first and the new items after, in order. Name, type and icon are unchanged. The items are well formed exactly when both parts are. |
| `MenuTree.WellFormedAppend` | context_menu/menus.py:37-41 | A concatenation of items is well formed exactly when both halves are. |
| `RegistryStore.GetKeyValue` | context_menu/pytest_plugin.py:54-58 | `None` exactly when the key or the value name is missing. Otherwise the stored value. |
| `RegistryStore.ListKeys` | context_menu/pytest_plugin.py:60-62 | The value names stored on the key. A missing key lists nothing. |
| `RegistryStore.DeleteKey` | context_menu/pytest_plugin.py:64-69 | Exactly the given key is removed; a missing key removes nothing. Every other key keeps its values. |
| `RegistryStore.CreateKey` | context_menu/pytest_plugin.py:44-46 | Exactly the given key is added. Every existing key keeps its values. A new key starts with an empty default value. |
| `RegistryStore.SetKeyValue` | context_menu/pytest_plugin.py:48-52 | Definition only. What a write changes is stated by `SetKeyValueFrame`, `GetAfterSet` and `SetKeyValueLastWins`. |
| `RegistryStore.CreateKeyIdempotent` | context_menu/pytest_plugin.py:44-46 | Creating a key twice is creating it once. |
| `RegistryStore.GetAfterCreate` | context_menu/pytest_plugin.py:44-58 | A new key reads as one empty default value and nothing else. Every other read is unchanged, including reads of a key that already existed. |
| `RegistryStore.SetKeyValueFrame` | context_menu/pytest_plugin.py:48-52 | A write adds at most the written key. No other key's values change. |
| `RegistryStore.GetAfterSet` | context_menu/pytest_plugin.py:48-58 | The written value reads back. A key the write created also has its empty default. Every other read is unchanged. |
| `RegistryStore.SetKeyValueLastWins` | context_menu/pytest_plugin.py:48-52 | Of two writes to the same value name, the last wins. |
| `RegistryStore.GetAfterDelete` | context_menu/pytest_plugin.py:54-69 | Nothing reads from a deleted key. Every other key reads as before. |
| `RegistryStore.ContextMenuAsserted` | context_menu/pytest_plugin.py:71-85 | Definition of the check: the menu key has an empty default, `MUIVerb` set to the name and an empty `subcommands`, and its `shell` subkey has an empty default. |
| `RegistryStore.ContextMenuWithIconAsserted` | context_menu/pytest_plugin.py:87-103 | Definition of the check: the menu check, plus `Icon` set to the icon path. |
| `RegistryStore.ContextCommandAsserted` | context_menu/pytest_plugin.py:105-118 | Definition of the check: the key's default is the name, and its `command` subkey's default is the command line. |
| `RegistryStore.ContextCommandWithIconAsserted` | context_menu/pytest_plugin.py:120-135 | Definition of the check: the command check, plus `Icon`. |
| `RegistryStore.FastCommandAsserted` | context_menu/pytest_plugin.py:137-153 | Definition of the check: like a command, but the key's default stays empty. |
| `RegistryStore.FastCommandWithIconAsserted` | context_menu/pytest_plugin.py:155-173 | Definition of the check: the fast command check, plus `Icon`. |
| `WinCommands.JoinKeys` | context_menu/windows_menus.py:173-182 | Joining no parts gives the empty path. Otherwise the length is the parts' lengths plus one separator per gap. |
| `WinCommands.JoinKeysAddsOnlySeparators` | context_menu/windows_menus.py:173-182 | The joined length is the parts' lengths plus one backslash per gap. Splitting at backslashes gives the parts back when none holds one. |
| `WinCommands.ContextRegistryFormat` | context_menu/windows_menus.py:185-194 | A type with a `.` maps to the lower-cased extension's `shell` key. Any other type succeeds exactly when its upper-cased form is in the table, and maps to the table's path. An unknown type raises `KeyError` of the upper-cased type. |
| `WinCommands.ContextRegistryFormatCases` | context_menu/windows_menus.py:150-194 | `.txt`, lower-case `files` and `DESKTOP` map to their table paths. `DESKTOP_BACKGROUND` is not in the table and raises `KeyError`. |
| `WinCommands.CommandVarFormat` | context_menu/windows_menus.py:206-211 | Succeeds exactly for an upper-cased name in the variables table, giving its expression. Otherwise `KeyError` of the upper-cased name. |
| `WinCommands.SlashPath` | context_menu/windows_menus.py:223-225 | Same length and no backslash left. Every other character is kept. |
| `WinCommands.SysSectionSlashed` | context_menu/windows_menus.py:223-225 | Replacing backslashes in the `sys.path` section changes only the directory. |
| `WinCommands.CreateFileSelectCommand` | context_menu/windows_menus.py:214-234 | The shared invocation shape, with the selected paths as the argument, followed by ` "%1"`. |
| `WinCommands.CreateDirectoryBackgroundCommand` | context_menu/windows_menus.py:237-258 | The shared invocation shape, with the extra `import os` and the current directory as the argument. No selection argument follows. |
| `WinCommands.CallableSuffixes` | context_menu/windows_menus.py:214-258 | The file-selection form ends in ` "%1"`. The background form ends with the script's closing quote. |
| `WinCommands.TransformVars` | context_menu/windows_menus.py:266-268 | Succeeds exactly when every variable is known, even an unused one. Each becomes its spliced expression, in order. |
| `WinCommands.Substitute` | context_menu/windows_menus.py:269 | Succeeds exactly when there are at least as many replacements as `?`s. Otherwise `IndexError`. |
| `WinCommands.SubstituteWeaves` | context_menu/windows_menus.py:269 | The result is the text between the `?`s with the replacements woven in, in order. |
| `WinCommands.SubstituteIgnoresExtra` | context_menu/windows_menus.py:269 | Replacements beyond the number of `?`s change nothing. |
| `WinCommands.CreateShellCommand` | context_menu/windows_menus.py:261-272 | Succeeds exactly when every variable is known and there are enough of them. The result runs the interpreter on `os.system` of the woven command, followed by ` "%1"`. |
| `WinKeys.SetMenuValues` | context_menu/windows_menus.py:300-306 | Only the menu key changes. It gets `MUIVerb`, `subcommands` and, when given, `Icon` over what it held. |
| `WinKeys.CreateMenu` | context_menu/windows_menus.py:294-311 | Returns the `shell` key below the menu key. The menu key gets the menu values, and the `shell` key is created with its old values kept. |
| `WinKeys.SetDefault` | context_menu/windows_menus.py:321-323 | Only the given key changes. Its default value is set. |
| `WinKeys.CreateCommand` | context_menu/windows_menus.py:313-326 | The command key gets its name as the default value, plus the icon when given. The `command` subkey's default value is the command line. |
| `WinKeys.CreateFastKeys` | context_menu/windows_menus.py:418-422 | Creates the key and its `command` subkey, keeping whatever they held. |
| `WinKeys.SetFastValues` | context_menu/windows_menus.py:443-446 | The `command` subkey's default value is the command line. The icon goes to the key. |
| `WinMenus.CommandText` | context_menu/windows_menus.py:349-373 | A shell command wins over the callable. With variables it takes the shell form, without them it is stored as written. With no command, the callable takes the background form for a background type and the file-selection form otherwise. With neither, the given error. |
| `WinMenus.WalkItems` | context_menu/windows_menus.py:341-373 | The walk succeeds exactly when every command of the forest has a command line. Keys are only ever added. |
| `WinMenus.WalkItem` | context_menu/windows_menus.py:342-373 | The same, for one item and its subtree. |
| `WinMenus.RegistryCompile` | context_menu/windows_menus.py:284-346 | An unknown type raises `KeyError` before any key is written. Otherwise the result is the walk of the one-item forest holding the root, under the type's path. |
| `WinMenus.FastCompile` | context_menu/windows_menus.py:415-446 | An unknown type raises `KeyError`. Otherwise the result succeeds exactly when the command line does. The key keeps its default value and gets the icon. The `command` subkey's default is the command line. The background form is chosen on the type as given. |
| `WinDelete.RemoveSubtreeClosed` | context_menu/windows_menus.py:96-106 | Removing a key with everything below it keeps the registry prefix-closed. |
| `WinDelete.DeleteTree` | context_menu/windows_menus.py:96-106 | A missing key raises. On success, exactly the key and everything below it are gone. On a prefix-closed registry holding the key it succeeds, and the result stays prefix-closed. |
| `WinDelete.RemoveWindowsMenu` | context_menu/windows_menus.py:453-459 | An unknown type raises `KeyError`. Otherwise the menu's key and its subtree are deleted, with the same cases as `delete_key`. |
| `WinProofs.ExpectedKeys` | context_menu/windows_menus.py:341-373 | Every key of the reference map lies below the path, under one of the siblings' names. |
| `WinProofs.MenuWrites` | context_menu/windows_menus.py:294-311 | On new keys, creating a menu adds exactly the menu key with its values and an empty `shell` key. |
| `WinProofs.CommandWrites` | context_menu/windows_menus.py:313-326 | On new keys, creating a command adds exactly the command key with its values and the `command` key with the command line. |
| `WinProofs.WalkItemExpected` | context_menu/windows_menus.py:342-373 | On a registry sharing no key with an item's reference map, walking the item adds exactly that map. |
| `WinProofs.WalkExpected` | context_menu/windows_menus.py:341-373 | On a registry sharing no key with a forest's reference map, walking the forest adds exactly that map. |
| `WinProofs.MenuValuesAsserted` | context_menu/pytest_plugin.py:71-103 | The values `create_menu` leaves on new keys pass `assert_context_menu`, or its icon variant. |
| `WinProofs.CommandValuesAsserted` | context_menu/pytest_plugin.py:105-135 | The values `create_command` leaves on new keys pass `assert_context_command`, or its icon variant. |
| `WinProofs.ExpectedItemMirrored` | context_menu/pytest_plugin.py:71-135 | Any registry holding an item's reference map passes the mock's check for every menu and command of the item. |
| `WinProofs.ExpectedMirrored` | context_menu/pytest_plugin.py:71-135 | The same, for a forest. |
| `WinProofs.FreshWalk` | context_menu/windows_menus.py:341-373 | With nothing stored under the siblings' names, the walk succeeds and adds exactly the reference map. Old keys keep their values, and every new key lies below the path. |
| `WinProofs.CompileExpected` | context_menu/windows_menus.py:328-373 | Compiling a tree under a fresh name adds exactly the reference map of the root menu. |
| `WinProofs.FreshWalkMirrored` | context_menu/windows_menus.py:341-373 | After such a walk, every menu and command passes the mock's checks. |
| `WinProofs.CompileMirrored` | context_menu/windows_menus.py:328-373 | After compiling under a fresh name, every menu and command of the tree passes the mock's checks. |
| `WinExamples.FastAsserted` | context_menu/pytest_plugin.py:137-173 | A fast command with a command line, on a registry where its key is new or has an empty default, passes `assert_fast_command` (or the icon variant). Its key's default stays empty. |
| `WinExamples.FastWithoutCallable` | context_menu/windows_menus.py:404-413 | A fast command with neither a command nor a callable raises the `TypeError` of `inspect.getfile(None)`. |
| `WinExamples.WalkWithoutCallable` | context_menu/menus.py:106 | In a tree, such a command stops the walk with `AssertionError`. |
| `WinExamples.BackgroundChoice` | context_menu/windows_menus.py:290-292 | A menu compile upper-cases the type before choosing the background form. A fast command's membership test sees the type as given. `DESKTOP` is not a background type. |
| `WinExamples.ShellCommandExample` | tests/test_windows.py:50-59 | `echo ?` with `FILENAME` gives the command line the test expects. |
| `WinExamples.ContextMenuExample` | tests/test_windows.py:21-27 | An empty `FILES` menu with an icon, compiled on an empty registry, passes `assert_context_menu_with_icon`. |
| `WinExamples.ContextCommandExample` | tests/test_windows.py:31-115 | A `FILES` menu with one plain command, compiled on an empty registry, passes the menu check. The command passes the command check, with the icon when it has one. |
| `WinExamples.PlainCommandCompiled` | tests/test_windows.py:92-115 | For any known type, a root menu holding one plain command, compiled on an empty registry, passes the menu check. The command passes the command check under the menu's `shell` key, with its icon when it has one. |
| `WinExamples.FastTxtExample` | tests/test_windows.py:167-192 | A fast `.txt` command passes `assert_fast_command` under the extension's key. |
| `WinExamples.CommandDefaults` | context_menu/windows_menus.py:313-326 | Whatever the keys held, after `create_command` the key's default is the name and the `command` key's default is the command line. |
| `WinExamples.DuplicateCommandLastWins` | context_menu/windows_menus.py:313-326 | Two sibling commands of the same name share their keys. The defaults read afterwards are those the second command alone writes. |
| `LinuxCode.MenuItemCode` | context_menu/linux_menus.py:53 | Definition: the `MENU_ITEM` declaration of item `n`, with the caption as name and label, and an empty tip and icon. |
| `LinuxCode.SubMenuCode` | context_menu/linux_menus.py:52 | Definition: the `SUB_MENU` declaration of submenu `n`. |
| `LinuxCode.MethodHandlerCode` | context_menu/linux_menus.py:37-42 | Definition: the `METHOD_HANDLER_TEMPLATE` handler, which calls the callable with the selected files' names. |
| `LinuxCode.CommandHandlerCode` | context_menu/linux_menus.py:44-48 | Definition: the `COMMAND_HANDLER_TEMPLATE` handler, which runs the command through `os.system`. |
| `LinuxCode.AppendItemCode` | context_menu/linux_menus.py:153-157 | Definition: the `append_item` statement. |
| `LinuxCode.SetSubmenuCode` | context_menu/linux_menus.py:159-163 | Definition: the `set_submenu` statement. |
| `LinuxCode.ConnectCode` | context_menu/linux_menus.py:165-169 | Definition: the `connect("activate", ...)` statement. |
| `LinuxCode.NamesInjective` | context_menu/linux_menus.py:173-215 | Item, menu and handler names built from distinct counter values are distinct. |
| `LinuxCode.ReturnRoot` | context_menu/linux_menus.py:282 | The literal return statement `build_script` appends is the return of item 0, the first counter value. |
| `LinuxCode.GenerateItem` | context_menu/linux_menus.py:183-191 | The variable's name is the item name of the counter, split off the declaration. Its code declares that item with the caption. The counter moves on by one. |
| `LinuxCode.GenerateMenu` | context_menu/linux_menus.py:173-181 | The same, for a submenu. |
| `LinuxCode.GeneratePythonFunc` | context_menu/linux_menus.py:193-203 | The variable is `self.` plus the handler name of the counter. Its code is the method handler calling the callable with the file names. The counter moves on by one. |
| `LinuxCode.GenerateCommandFunc` | context_menu/linux_menus.py:205-215 | The same, with a handler that runs the command through `os.system`. |
| `LinuxCode.GetNextItem` | context_menu/linux_menus.py:221-228 | Names the item the next `generate_item` declares, whatever its caption. The counter is left where it was. |
| `Nautilus.ForwardReference` | context_menu/linux_menus.py:246-249 | A submenu's statements are its own body and then the append of item `c` into the parent menu. The body opens by declaring item `c` with the submenu's caption. The appended name is the one `get_next_item` predicts for `c`. |
| `LinuxExamples.OneCommandScript` | tests/test_linux.py:24-29 | A menu holding one command of the same name gives the statement list the test lists. Item 0 with menu 1, then item 2 connected to handler 3 and appended to menu 1, then the return. The only handler is the command handler 3. |
| `LinuxExamples.MenuLine` | tests/test_linux.py:28 | The menu declaration renders as `submenu1 = Nautilus.Menu()`. |
| `LinuxExamples.SetSubmenuLine` | tests/test_linux.py:28 | The submenu statement renders as `menuitem0.set_submenu(submenu1)`. |
| `LinuxExamples.ConnectLine` | tests/test_linux.py:29 | The connection links `menuitem2` to `self.method_handler3`. |
| `LinuxExamples.AppendLine` | tests/test_linux.py:29 | The append renders as `submenu1.append_item(menuitem2)`. |
| `CodeBuilder.Dedup` | context_menu/linux_menus.py:69-71 | No repeats, the same elements, and never longer. |
| `CodeBuilder.DedupDistinct` | context_menu/linux_menus.py:69-71 | A list without repeats comes through unchanged. |
| `CodeBuilder.DedupIdempotent` | context_menu/linux_menus.py:69-71 | Removing repeats twice is removing them once. |
| `CodeBuilder.NewBuilder` | context_menu/linux_menus.py:63-72 | Body and handlers are kept as given. Directories and imports keep their elements but lose repeats. The type is upper-cased. |
| `CodeBuilder.ItemsMethod` | context_menu/linux_menus.py:103-105 | The background items method exactly for the two background types, the file items method otherwise. |
| `CodeBuilder.Compile` | context_menu/linux_menus.py:94-118 | The file opens with the fixed head and the `sys.path` section. It closes with the items method, its indented body and the trailing line. |
| `CodeBuilder.ScriptDirsCode` | context_menu/linux_menus.py:74-83 | Definition: one `sys.path.append` line per directory. Read back by `ScriptDirsLines`. |
| `CodeBuilder.ImportsCode` | context_menu/linux_menus.py:85-92 | Definition: one `import` line per module. Read back by `ImportsLines`. |
| `CodeBuilder.Sections` | context_menu/linux_menus.py:94-118 | The whole file, in order: the head, the `sys.path` section, the imports, the class declaration, the handlers, the items method, the body and the trailing line. Each is separated by a newline. |
| `CodeBuilder.HandlerInFile` | context_menu/linux_menus.py:94-118 | Every handler occurs in the handler section, and so in the file. |
| `CodeBuilder.ImportInFile` | context_menu/linux_menus.py:85-118 | Every module has its `import` line in the import section, and so in the file. |
| `CodeBuilder.DirInFile` | context_menu/linux_menus.py:74-118 | Every directory has its `sys.path.append` line in the `sys.path` section, and so in the file. |
| `CodeBuilder.BodyLines` | context_menu/linux_menus.py:106 | Read back line by line, the body is every statement indented by two tabs, in order. |
| `CodeBuilder.ScriptDirsLines` | context_menu/linux_menus.py:74-83 | Read back line by line, the path section is one `sys.path.append` per directory. |
| `CodeBuilder.ImportsLines` | context_menu/linux_menus.py:85-92 | Read back line by line, the import section is one `import` per module. |
| `Nautilus.CommandOrNone` | context_menu/linux_menus.py:264 | A command without a shell command formats as `None`. |
| `Nautilus.HandlerOf` | context_menu/linux_menus.py:257-264 | The handler carries the given id. It is a method handler exactly when the command has a callable. |
| `Nautilus.BuildBody` | context_menu/linux_menus.py:234-275 | Declares item `c` and menu `c+1` and hangs the menu under the item. Each node takes two counter values. One handler per command. One directory and one import per callable. |
| `Nautilus.BuildItems` | context_menu/linux_menus.py:245-275 | The loop advances the counter by two per node. One handler per command. One directory and one import per callable. |
| `Nautilus.BuildItem` | context_menu/linux_menus.py:246-275 | The same, for one item. |
| `Nautilus.BuildScriptParts` | context_menu/linux_menus.py:277-282 | The statements open with the top item and close with its return. The counter ends at two per node. One handler per command. |
| `Nautilus.ScriptBuilder` | context_menu/linux_menus.py:281-284 | The body opens with the top item's declaration and closes with its return. One handler method per command, the type upper-cased, no repeated directories or imports. |
| `Nautilus.BuildScript` | context_menu/linux_menus.py:277-286 | The file opens with the fixed head. It closes with the items method: the background one exactly when the upper-cased type is a background type. |
| `Nautilus.ReturnsTopItem` | context_menu/linux_menus.py:282-284 | The file ends with `return menuitem0,`, indented, and the trailing line. |
| `CodeBuilder.LastLine` | context_menu/linux_menus.py:106-116 | A compiled file ends with its last body statement, indented, and the trailing line. |
| `Nautilus.PathJoin` | context_menu/linux_menus.py:302-306 | An absolute second part replaces the first. Otherwise a slash separates them, unless the first is empty or ends in one. |
| `Nautilus.ExtensionPathShape` | context_menu/linux_menus.py:297-306 | The file lands in `~/.local/share/nautilus-python/extensions`, named after the menu with `.py`. A menu name that is an absolute path escapes it. |
| `NautilusProofs.BodyNumbered` | context_menu/linux_menus.py:234-275 | The counter values a body uses each name exactly one declared variable or handler. Both are in increasing order and together use up the whole range. |
| `NautilusProofs.ItemsNumbered` | context_menu/linux_menus.py:245-275 | The same, for the loop. |
| `NautilusProofs.ItemNumbered` | context_menu/linux_menus.py:246-275 | The same, for one item. |
| `NautilusProofs.ScriptNumbered` | context_menu/linux_menus.py:277-282 | The same, for the whole script from counter 0. |
| `NautilusProofs.BodyScoped` | context_menu/linux_menus.py:234-275 | Read in order, every statement of a body refers only to items and menus declared before it. The body declares its own top item, which is what the enclosing menu appends. |
| `NautilusProofs.ItemsScoped` | context_menu/linux_menus.py:245-275 | The same, for the loop into a declared menu. |
| `NautilusProofs.ItemScoped` | context_menu/linux_menus.py:246-275 | The same, for one item. |
| `NautilusProofs.ScriptScoped` | context_menu/linux_menus.py:277-282 | The whole items method, return included, uses no undeclared variable. |
| `NautilusProofs.BodyServes` | context_menu/linux_menus.py:234-275 | The i-th handler is the one the i-th command needs. The `connect` statements name the handlers in order. The i-th `connect` links the item declared with the i-th command's caption. The directories and imports are those of the callables, in order. |
| `NautilusProofs.ItemsServes` | context_menu/linux_menus.py:245-275 | The same, for the loop. |
| `NautilusProofs.ItemServes` | context_menu/linux_menus.py:246-275 | The same, for one item. |
| `NautilusProofs.ScriptServes` | context_menu/linux_menus.py:277-282 | The same, for the whole script. |
| `NautilusProofs.ScriptFileHandlers` | context_menu/linux_menus.py:234-286 | There is one handler per command, and the text of each occurs in the generated file. |
| `NautilusProofs.ScriptFileCallables` | context_menu/linux_menus.py:234-286 | For every command with a callable, the generated file holds the `import` of its module and the `sys.path.append` of its directory. |
| `Menus.NautilusCompile` | context_menu/linux_menus.py:297-309 | The built script is written to the extension path of the menu. |
| `Menus.CompileMenu` | context_menu/menus.py:43-53 | A menu without a type raises on every platform. With a type, Linux writes the extension and Windows gets exactly what `RegistryMenu` gives. Any other platform is left alone. |
| `Menus.FastAsMenu` | context_menu/menus.py:155-168 | The Linux backend sees a menu of the same name and type, holding one command with the same fields and no icon. It fails exactly when the command is invalid. |
| `Menus.CompileFast` | context_menu/menus.py:154-178 | Linux compiles that one-command menu. Windows gets exactly what `FastRegistryCommand` gives. Any other platform is left alone. |
| `Menus.FastIsOneCommandMenu` | context_menu/menus.py:155-168 | On Linux a fast command compiles to what the one-command menu of its name compiles to. |
| `Menus.RemoveMenu` | context_menu/menus.py:183-193 | Linux raises `AttributeError`. Windows deletes the menu's key and its subtree, with `remove_windows_menu`'s error cases. Any other platform is left alone. |

## Left out

- I/O is outside the model:
  - `winreg`, `ctypes`, `is_admin` and `run_admin`;
  - the `print` calls;
  - `create_path`'s directory creation;
  - the file write of the Linux `compile`.

  The registry is a value that goes in and comes out. The Linux backend
  returns the path and the text it would write.
- Hosts that are not machines become parameters:
  - the platform (`platform.system()`);
  - `sys.executable`;
  - the home directory;
  - `get_method_info`'s reflection, replaced by the triple `PyFunc`. The
    fast command's `get_method_info` (`context_menu/windows_menus.py:404-413`)
    keeps the backslashes of a Windows directory, while `menus.py` replaces
    them (lines 109 and 148). The model does not track the difference. The
    Windows builders replace the backslashes of their whole `sys.path`
    section (`WinCommands.SysSectionSlashed`), so the written command is
    the same either way.

  `command_preset_format`, `COMMAND_PRESETS` and `get_platform_command` are
  unused by the core and are not modelled.
- `WinCommands.CreateShellCommand`: requires a command without braces.
  `str.format` gives braces meanings of their own, which are not modelled.
  `WinMenus.CommandText`, `WinMenus.WalkItems`, `WinMenus.WalkItem`,
  `WinMenus.RegistryCompile`, `WinMenus.FastCompile`, `Menus.CompileMenu` and
  `Menus.CompileFast` carry the same requirement for their shell commands.
- `CodeBuilder.Dedup`: Python's `list(set(xs))` leaves the order to string
  hashing. The model keeps each element's last occurrence. The contracts state
  only the same elements without repeats.
- The mock prefixes every key with `HKEY_CURRENT_USER\`. The model stores the
  path without that prefix. The prefix is the same for every key, so no
  behaviour changes.
- A Windows compile that raises part-way leaves the keys already written. The
  model returns only the error, not that partial registry.
- Case mapping covers ASCII letters only.
- The mock's `list_keys` returns value names, and the model keeps them as a
  set (`RegistryStore.ListKeys`).
- The mock's `delete_key` removes a single key (`RegistryStore.DeleteKey`).
  The real `delete_key` recurses over subkeys (`WinDelete.DeleteTree`), with
  subkeys derived from the stored paths.
- The exact strings of the file-selection and background Windows examples are
  not stated as literals, because the interpreter path and the callable's
  directory vary between runs. `WinCommands.CreateFileSelectCommand` and
  `WinCommands.CreateDirectoryBackgroundCommand` state them for every input.
- `tests/test_linux.py` lines 11-20 expect a `filepath = ...` line in the
  command handler. The current `COMMAND_HANDLER_TEMPLATE`
  (`context_menu/linux_menus.py:44-48`) does not emit it. The model follows the
  code.
- `Nautilus.BuildScript`: states the head, the tail and the choice of items
  method, not the full text. `CodeBuilder.Sections` states the order of all
  sections of a compiled file. `HandlerInFile`, `ImportInFile` and `DirInFile`
  place each handler, import and directory in its section.
- `LinuxExamples.ConnectLine`: states the connection in terms of the
  `connect` template rather than as one literal.
- `removeMenu` on Linux calls `linux_menus.remove_linux_menu`, which
  `linux_menus.py` does not define. The model raises the `AttributeError`
  that call raises.
