/** The code fragments of `context_menu/linux_menus.py`: the `ExistingCode`
    templates, the names the generators derive from the counter, and the
    statements and handlers of the generated Nautilus extension. Statements
    are kept as a small syntax tree that names its variables by counter
    value; `Render` turns each into the exact text the source emits. */
module LinuxCode {
  import Strs

  /** `ExistingCode.CODE_HEAD` */
  const CodeHead: string :=
    "\nimport gi\nimport sys\nimport os\n\ngi.require_version('Nautilus', '3.0')\n\n"
    + "from gi.repository import Nautilus, GObject\n\n# -------------------------------------------- #\n\n"
    + "try:\n\tfrom urllib import unquote\nexcept ImportError:\n\tfrom urllib.parse import unquote\n    "

  /** `ExistingCode.CLASS_TEMPLATE`: the provider class always has the same
      name, whatever the menu is called. */
  const ClassTemplate: string :=
    "\nclass ExampleMenuProvider(GObject.GObject, Nautilus.MenuProvider):\n\tdef __init__(self):\n\t\tpass\n"

  /** `ExistingCode.FILE_ITEMS` and `ExistingCode.BACKGROUND_ITEMS` */
  const FileItems: string := "\tdef get_file_items(self, window, files):"
  const BackgroundItems: string := "\tdef get_background_items(self, window, files):"

  /** The variable and method names the counter value `n` gives. */
  function ItemName(n: nat): string {
    "menuitem" + Strs.NatToString(n)
  }

  function MenuName(n: nat): string {
    "submenu" + Strs.NatToString(n)
  }

  function HandlerName(n: nat): string {
    "method_handler" + Strs.NatToString(n)
  }

  /** Names built from distinct counter values are distinct. */
  lemma NamesInjective(a: nat, b: nat)
    ensures ItemName(a) == ItemName(b) ==> a == b
    ensures MenuName(a) == MenuName(b) ==> a == b
    ensures HandlerName(a) == HandlerName(b) ==> a == b
  {
    if ItemName(a) == ItemName(b) {
      assert Strs.NatToString(a) == ItemName(a)[8..];
      assert Strs.NatToString(b) == ItemName(b)[8..];
      Strs.NatToStringInjective(a, b);
    }
    if MenuName(a) == MenuName(b) {
      assert Strs.NatToString(a) == MenuName(a)[7..];
      assert Strs.NatToString(b) == MenuName(b)[7..];
      Strs.NatToStringInjective(a, b);
    }
    if HandlerName(a) == HandlerName(b) {
      assert Strs.NatToString(a) == HandlerName(a)[14..];
      assert Strs.NatToString(b) == HandlerName(b)[14..];
      Strs.NatToStringInjective(a, b);
    }
  }

  /** `ExistingCode.MENU_ITEM.format(n, caption, caption, '', '')`: the
      declaration of item `n`, with an empty tip and icon. */
  function MenuItemCode(n: nat, caption: string): string {
    ItemName(n) + " = " + MenuItemCall(caption)
  }

  function MenuItemCall(caption: string): string {
    "Nautilus.MenuItem(name = \"ExampleMenuProvider::" + caption + "\", label=\"" + caption
    + "\", tip = \"" + "" + "\", icon = \"" + "" + "\")"
  }

  /** `ExistingCode.SUB_MENU.format(n)` */
  function SubMenuCode(n: nat): string {
    MenuName(n) + " = " + "Nautilus.Menu()"
  }

  /** The handler's signature and its line that turns the selected files'
      URIs into local file names. */
  const SelectedFilenames: string :=
    "(self, menu, files):\n\t\tfilenames = [unquote(subFile.get_uri()[7:]) for subFile in files]\n\t\t"

  /** `ExistingCode.METHOD_HANDLER_TEMPLATE.format(name, origin, func, arg)` */
  function MethodHandlerCode(name: string, origin: string, func: string, arg: string): string {
    "\n\tdef " + name + SelectedFilenames + origin + "." + func + "(" + arg + ")\n\n"
  }

  /** `ExistingCode.COMMAND_HANDLER_TEMPLATE.format(name, command)` */
  function CommandHandlerCode(name: string, command: string): string {
    "\n\tdef " + name + "(self, menu, files):\n\t\tos.system('" + command + "')\n\n"
  }

  /** `append_item`, `set_submenu` and `connect` of `NautilusMenu`. */
  function AppendItemCode(menu: string, item: string): string {
    menu + ".append_item(" + item + ")"
  }

  function SetSubmenuCode(item: string, menu: string): string {
    item + ".set_submenu(" + menu + ")"
  }

  function ConnectCode(item: string, func: string): string {
    item + ".connect(\"activate\", " + func + ", files)"
  }

  /** A statement of the body of the items method. */
  datatype Stmt =
    | NewItem(id: nat, caption: string)
    | NewMenu(id: nat)
    | SetSubmenu(item: nat, menu: nat)
    | AppendItem(menu: nat, item: nat)
    | Connect(item: nat, handler: nat)
    | ReturnItem(item: nat)

  /** A method of the provider class: one per command. */
  datatype Handler =
    | MethodHandler(id: nat, origin: string, func: string)
    | CommandHandler(id: nat, command: string)

  /** The exact text of a statement. */
  function Render(s: Stmt): string {
    match s
    case NewItem(n, caption) => MenuItemCode(n, caption)
    case NewMenu(n) => SubMenuCode(n)
    case SetSubmenu(i, m) => SetSubmenuCode(ItemName(i), MenuName(m))
    case AppendItem(m, i) => AppendItemCode(MenuName(m), ItemName(i))
    case Connect(i, h) => ConnectCode(ItemName(i), "self." + HandlerName(h))
    case ReturnItem(i) => "return " + ItemName(i) + ","
  }

  /** The exact text of a handler; a callable is always called with the
      selected file names, never with the command's parameters. */
  function RenderHandler(h: Handler): string {
    match h
    case MethodHandler(n, origin, func) => MethodHandlerCode(HandlerName(n), origin, func, "filenames")
    case CommandHandler(n, command) => CommandHandlerCode(HandlerName(n), command)
  }

  /** The statement `build_script` adds last renders as the literal the
      source appends, and names the item the counter's first value gave. */
  lemma ReturnRoot()
    ensures Render(ReturnItem(0)) == "return menuitem0,"
  {
    assert Strs.NatToString(0) == "0";
  }

  /** `Variable(name, code)` */
  datatype Variable = Variable(name: string, code: string)

  /** No counter name holds a space, so the name is everything before the
      first ` = ` of a declaration. */
  lemma NameBeforeEquals(name: string, rest: string)
    requires forall i :: 0 <= i < |name| ==> name[i] != ' '
    ensures Strs.BeforeFirst(name + " = " + rest, " = ") == name
  {
    assert name + " = " + rest == name + " = " + rest;
    Strs.BeforeFirstOf(name, " = ", rest);
  }

  lemma CounterNamesSpaceFree(n: nat)
    ensures forall i :: 0 <= i < |ItemName(n)| ==> ItemName(n)[i] != ' '
    ensures forall i :: 0 <= i < |MenuName(n)| ==> MenuName(n)[i] != ' '
  {
    var d := Strs.NatToString(n);
    forall i | 0 <= i < |ItemName(n)|
      ensures ItemName(n)[i] != ' '
    {
      if i >= 8 {
        assert ItemName(n)[i] == d[i - 8];
      }
    }
    forall i | 0 <= i < |MenuName(n)|
      ensures MenuName(n)[i] != ' '
    {
      if i >= 7 {
        assert MenuName(n)[i] == d[i - 7];
      }
    }
  }

  /** `generate_item(caption)` at counter `n`: the declaration of `NewItem`,
      whose variable name (split off at ` = `) is the item name of `n`; the
      counter moves on by one. */
  function GenerateItem(n: nat, caption: string): (r: (Variable, nat))
    ensures r.0 == Variable(ItemName(n), Render(NewItem(n, caption)))
    ensures r.1 == n + 1
  {
    var code := MenuItemCode(n, caption);
    CounterNamesSpaceFree(n);
    NameBeforeEquals(ItemName(n), MenuItemCall(caption));
    (Variable(Strs.BeforeFirst(code, " = "), code), n + 1)
  }

  /** `generate_menu()` at counter `n`. */
  function GenerateMenu(n: nat): (r: (Variable, nat))
    ensures r.0 == Variable(MenuName(n), Render(NewMenu(n)))
    ensures r.1 == n + 1
  {
    var code := SubMenuCode(n);
    CounterNamesSpaceFree(n);
    NameBeforeEquals(MenuName(n), "Nautilus.Menu()");
    (Variable(Strs.BeforeFirst(code, " = "), code), n + 1)
  }

  /** `generate_python_func(origin, func)` at counter `n`. */
  function GeneratePythonFunc(n: nat, origin: string, func: string): (r: (Variable, nat))
    ensures r.0 == Variable("self." + HandlerName(n), RenderHandler(MethodHandler(n, origin, func)))
    ensures r.1 == n + 1
  {
    var funcName := HandlerName(n);
    (Variable("self." + funcName, MethodHandlerCode(funcName, origin, func, "filenames")), n + 1)
  }

  /** `generate_command_func(command)` at counter `n`. */
  function GenerateCommandFunc(n: nat, command: string): (r: (Variable, nat))
    ensures r.0 == Variable("self." + HandlerName(n), RenderHandler(CommandHandler(n, command)))
    ensures r.1 == n + 1
  {
    var funcName := HandlerName(n);
    (Variable("self." + funcName, CommandHandlerCode(funcName, command)), n + 1)
  }

  /** `get_next_item()`: generates an item and rolls the counter back, so
      it names exactly the item the next `generate_item` declares, whatever
      its caption, and leaves the counter where it was. */
  function GetNextItem(n: nat): (r: (string, nat))
    ensures r.1 == n
    ensures forall caption :: r.0 == GenerateItem(n, caption).0.name
  {
    var (val, next) := GenerateItem(n, "");
    (val.name, next - 1)
  }
}
