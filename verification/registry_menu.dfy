/** `RegistryMenu` and `FastRegistryCommand` of `context_menu/windows_menus.py`:
    the pre-order walk that mirrors a menu tree into registry keys, and the
    single-key form of a fast command. The registry is the in-memory store
    of `RegistryStore`; an operation that raises part-way is modelled by its
    error alone. */
module WinMenus {
  import opened Wrappers
  import Strs
  import opened MenuTree
  import opened RegistryStore
  import opened WinCommands
  import opened WinKeys

  /** What every command of one compile shares: the executable, whether the
      activation type selects the background form of a callable, and the
      icon of the root menu, which every submenu gets as well. */
  datatype Ctx = Ctx(exe: string, background: bool, rootIcon: Option<string>)

  /** Every command that is run through the shell has a brace-free text. */
  predicate CommandsBraceFree(items: seq<Item>)
    decreases SizeSeq(items)
  {
    |items| == 0 ||
    (SizeSeqSplits(items);
     (match items[0]
      case Menu(_, sub, _, _) => CommandsBraceFree(sub)
      case Command(_, command, _, _, vars, _) => command.Some? && vars.Some? ==> BraceFree(command.value))
     && CommandsBraceFree(items[1..]))
  }

  /** The command line a command leaf stores. A shell command wins over the
      callable; with no command at all the callable is used, and `missing` is
      what is raised when there is none either. With a command, non-`None`
      command variables select the shell form, and otherwise the command is
      stored as it is. */
  function CommandText(exe: string, background: bool, command: Option<string>, python: Option<PyFunc>,
                       params: string, vars: Option<seq<string>>, missing: Error): (r: Result<string>)
    requires command.Some? && vars.Some? ==> BraceFree(command.value)
    ensures command.None? && python.None? ==> r == Err(missing)
    ensures command.None? && python.Some? && background ==>
              r == Ok(Invocation(exe, BackgroundSysPrefix, python.value.dirPath, python.value.moduleName,
                                 python.value.funcName, CommandVars["DIR"], params))
    ensures command.None? && python.Some? && !background ==>
              r == Ok(Invocation(exe, FileSelectSysPrefix, python.value.dirPath, python.value.moduleName,
                                 python.value.funcName, CommandVars["FILENAME"], params) + " \"%1\"")
    ensures command.Some? && vars.Some? ==> r == CreateShellCommand(exe, command.value, vars.value)
    ensures command.Some? && vars.None? ==> r == Ok(command.value)
  {
    if command.None? then
      if python.None? then Err(missing)
      else
        var f := python.value;
        if background then Ok(CreateDirectoryBackgroundCommand(exe, f.funcName, f.moduleName, f.dirPath, params))
        else Ok(CreateFileSelectCommand(exe, f.funcName, f.moduleName, f.dirPath, params))
    else if vars.Some? then CreateShellCommand(exe, command.value, vars.value)
    else Ok(command.value)
  }

  /** The names of a list of siblings. */
  function Names(items: seq<Item>): (r: set<string>)
    ensures forall i :: 0 <= i < |items| ==> items[i].name in r
    ensures forall n :: n in r ==> exists i :: 0 <= i < |items| && items[i].name == n
  {
    if |items| == 0 then {} else {items[0].name} + Names(items[1..])
  }

  /** Every command of the forest has a command line: none lacks both a
      command and a callable, and every shell form resolves. */
  predicate Resolvable(items: seq<Item>, ctx: Ctx)
    requires CommandsBraceFree(items)
    decreases SizeSeq(items)
  {
    |items| == 0 ||
    (SizeSeqSplits(items);
     (match items[0]
      case Menu(_, sub, _, _) => Resolvable(sub, ctx)
      case Command(_, command, python, params, vars, _) =>
        CommandText(ctx.exe, ctx.background, command, python, params, vars, AssertionError).Ok?)
     && Resolvable(items[1..], ctx))
  }

  /** A key at or below `Key(path, name)` lies below `path`, under `name`. */
  lemma UnderChild(path: string, name: string, k: string)
    requires '\\' !in name
    requires k == Key(path, name) || Below(Key(path, name), k)
    ensures Below(path, k) && ChildName(path, k) == name
  {
    if k == Key(path, name) {
      ChildOfJoin(path, name);
    } else {
      BelowJoin(path, name, k);
    }
  }

  /** The `shell` subkey of a menu, and everything below it, lies below the
      menu key. */
  lemma UnderShell(key: string, k: string)
    requires k == Key(key, "shell") || Below(Key(key, "shell"), k)
    ensures Below(key, k)
  {
    if k != Key(key, "shell") {
      assert key + "\\" <= Key(key, "shell") + "\\";
    }
  }

  /** `RegistryMenu.compile(items, path)`: the pre-order walk. A submenu is
      created with the root's icon and its children are written under its
      `shell` key; a command is written with its own icon. The walk fails
      exactly when some command has no command line, and it never removes a
      key. */
  function WalkItems(s: Store, items: seq<Item>, path: string, ctx: Ctx): (r: Result<Store>)
    requires CommandsBraceFree(items)
    ensures r.Ok? <==> Resolvable(items, ctx)
    ensures r.Ok? ==> s.Keys <= r.value.Keys
    decreases SizeSeq(items), 1
  {
    if |items| == 0 then Ok(s)
    else
      SizeSeqSplits(items);
      var head := items[0];
      assert [head][1..] == [];
      var s1 :- WalkItem(s, head, path, ctx);
      WalkItems(s1, items[1..], path, ctx)
  }

  /** One step of the walk: the item itself and, for a submenu, everything
      below it. */
  function WalkItem(s: Store, item: Item, path: string, ctx: Ctx): (r: Result<Store>)
    requires CommandsBraceFree([item])
    ensures r.Ok? <==> Resolvable([item], ctx)
    ensures r.Ok? ==> s.Keys <= r.value.Keys
    decreases SizeSeq([item]), 0
  {
    assert [item][1..] == [];
    match item
    case Menu(name, sub, _, _) =>
      SizeSeqSplits([item]);
      var (s0, shell) := CreateMenu(s, name, path, ctx.rootIcon);
      WalkItems(s0, sub, shell, ctx)
    case Command(name, command, python, params, vars, icon) =>
      var text :- CommandText(ctx.exe, ctx.background, command, python, params, vars, AssertionError);
      Ok(CreateCommand(s, name, path, text, icon))
  }

  /** The context of a root menu compiled for activation type `activation`:
      the background form is chosen on the upper-cased type. */
  function RootCtx(activation: string, icon: Option<string>, exe: string): Ctx {
    Ctx(exe, Strs.Upper(activation) in BackgroundTypes, icon)
  }

  /** `RegistryMenu(name, sub_items, type, icon_path).compile()`: an unknown
      type raises `KeyError` in the constructor, before any key is written;
      otherwise the root menu is created under the type's path and the walk
      continues under its `shell` key, which is the same as walking a
      one-item list holding the root. */
  function RegistryCompile(s: Store, name: string, subItems: seq<Item>, activation: string,
                           icon: Option<string>, exe: string): (r: Result<Store>)
    requires CommandsBraceFree(subItems)
    ensures ContextRegistryFormat(activation).Err? ==> r == Err(KeyError(Strs.Upper(activation)))
    ensures ContextRegistryFormat(activation).Ok? ==>
              r == WalkItems(s, [Menu(name, subItems, Some(activation), icon)],
                             ContextRegistryFormat(activation).value, RootCtx(activation, icon, exe))
  {
    var path :- ContextRegistryFormat(activation);
    var ctx := Ctx(exe, Strs.Upper(activation) in BackgroundTypes, icon);
    var root := Menu(name, subItems, Some(activation), icon);
    assert [root][1..] == [];
    assert CommandsBraceFree([root]);
    var (s0, shell) := CreateMenu(s, name, path, icon);
    WalkItems(s0, subItems, shell, ctx)
  }

  /** What `inspect.getfile(None)` raises. */
  const NoCallable: Error := TypeError("module, class, method, function, traceback, frame, or code object was expected, got NoneType")

  /** `FastRegistryCommand(...).compile()`: the key and its `command` subkey
      are created, the command line goes to the subkey's default value and
      the icon to the key; the key's own default value is left as it was.
      The background form is chosen on the type as given, without
      upper-casing. */
  function FastCompile(s: Store, fc: FastCommand, exe: string): (r: Result<Store>)
    requires fc.command.Some? && fc.commandVars.Some? ==> BraceFree(fc.command.value)
    ensures ContextRegistryFormat(fc.activation).Err? ==> r == Err(KeyError(Strs.Upper(fc.activation)))
    ensures ContextRegistryFormat(fc.activation).Ok? ==>
              var text := CommandText(exe, fc.activation in BackgroundTypes, fc.command, fc.python,
                                      fc.params, fc.commandVars, NoCallable);
              var key := Key(ContextRegistryFormat(fc.activation).value, fc.name);
              && (r.Ok? <==> text.Ok?)
              && (r.Err? ==> r.error == text.error)
              && (r.Ok? ==> r.value == s[key := ValuesOf(s, key) + IconAttr(fc.icon)]
                                        [Key(key, "command") := ValuesOf(s, Key(key, "command"))["" := text.value]])
  {
    var path :- ContextRegistryFormat(fc.activation);
    var keyPath := Key(path, fc.name);
    var s2 := CreateFastKeys(s, keyPath);
    var newCommand :- CommandText(exe, fc.activation in BackgroundTypes, fc.command, fc.python,
                                  fc.params, fc.commandVars, NoCallable);
    Ok(SetFastValues(s2, s, keyPath, newCommand, fc.icon))
  }
}
