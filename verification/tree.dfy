/** The platform-neutral menu tree of `context_menu/menus.py`: a menu holds
    an ordered list of menus and commands; a command runs either a shell
    command text or a Python callable. The callable itself is not modelled:
    only the triple that reflection would extract from it. */
module MenuTree {
  import opened Wrappers

  /** What reflection reports about a Python callable: its name, the name of
      the module that defines it, and that module's directory. */
  datatype PyFunc = PyFunc(funcName: string, moduleName: string, dirPath: string)

  /** A node of the tree. `menuType` is only read on the root menu. */
  datatype Item =
    | Menu(name: string, subItems: seq<Item>, menuType: Option<string>, icon: Option<string>)
    | Command(name: string, command: Option<string>, python: Option<PyFunc>, params: string,
              commandVars: Option<seq<string>>, icon: Option<string>)
  {
    /** The `isMenu` flag both backends branch on. */
    predicate IsMenu() {
      Menu?
    }
  }

  /** A single command registered directly under an activation type. */
  datatype FastCommand = FastCommand(name: string, activation: string, command: Option<string>,
                                     python: Option<PyFunc>, params: string,
                                     commandVars: Option<seq<string>>, icon: Option<string>)

  /** Number of nodes of a subtree, the node itself included. */
  function Size(item: Item): (n: nat)
    ensures n >= 1
    decreases item
  {
    match item
    case Menu(_, sub, _, _) => 1 + SizeSeq(sub)
    case Command(_, _, _, _, _, _) => 1
  }

  /** Number of nodes of a forest. */
  function SizeSeq(items: seq<Item>): nat
    decreases items
  {
    if |items| == 0 then 0 else Size(items[0]) + SizeSeq(items[1..])
  }

  /** The measure every recursive walk over the tree decreases: both the
      first item's children and the remaining siblings are smaller. */
  lemma SizeSeqSplits(items: seq<Item>)
    requires |items| > 0
    ensures SizeSeq(items[1..]) < SizeSeq(items)
    ensures SizeSeq([items[0]]) <= SizeSeq(items)
    ensures items[0].Menu? ==> SizeSeq(items[0].subItems) < SizeSeq([items[0]])
  {
    assert [items[0]][1..] == [];
  }

  /** Number of command leaves of a forest. */
  function Leaves(items: seq<Item>): nat
    decreases SizeSeq(items)
  {
    if |items| == 0 then 0
    else
      SizeSeqSplits(items);
      (match items[0]
       case Menu(_, sub, _, _) => Leaves(sub)
       case Command(_, _, _, _, _, _) => 1)
      + Leaves(items[1..])
  }

  /** Number of command leaves of a forest that run a Python callable. */
  function CallableLeaves(items: seq<Item>): nat
    decreases SizeSeq(items)
  {
    if |items| == 0 then 0
    else
      SizeSeqSplits(items);
      (match items[0]
       case Menu(_, sub, _, _) => CallableLeaves(sub)
       case Command(_, _, python, _, _, _) => if python.Some? then 1 else 0)
      + CallableLeaves(items[1..])
  }

  /** No command of the forest has both a shell command and a callable. */
  predicate WellFormedSeq(items: seq<Item>)
    decreases SizeSeq(items)
  {
    |items| == 0 ||
    (SizeSeqSplits(items);
     (match items[0]
      case Menu(_, sub, _, _) => WellFormedSeq(sub)
      case Command(_, command, python, _, _, _) => !(command.Some? && python.Some?))
     && WellFormedSeq(items[1..]))
  }

  predicate WellFormed(item: Item) {
    WellFormedSeq([item])
  }

  /** `ContextMenu(name, type, icon_path)`: a menu with no items yet. */
  function NewContextMenu(name: string, menuType: Option<string>, icon: Option<string>): (r: Item)
    ensures r.IsMenu() && r.subItems == []
    ensures r.name == name && r.menuType == menuType && r.icon == icon
    ensures WellFormed(r)
  {
    Menu(name, [], menuType, icon)
  }

  /** `ContextCommand(...)`: rejects a command that has both a shell command
      and a callable; keeps every argument otherwise. */
  function NewContextCommand(name: string, command: Option<string>, python: Option<PyFunc>,
                             params: string, commandVars: Option<seq<string>>,
                             icon: Option<string>): (r: Result<Item>)
    ensures r.Err? <==> command.Some? && python.Some?
    ensures r.Err? ==> r.error.ValueError?
    ensures r.Ok? ==> !r.value.IsMenu() && WellFormed(r.value)
    ensures r.Ok? ==> r.value == Command(name, command, python, params, commandVars, icon)
  {
    if command.Some? && python.Some? then Err(ValueError("both command and python cannot be defined"))
    else Ok(Command(name, command, python, params, commandVars, icon))
  }

  /** `FastCommand(...)`: the same validation as a ContextCommand. */
  function NewFastCommand(name: string, activation: string, command: Option<string>,
                          python: Option<PyFunc>, params: string,
                          commandVars: Option<seq<string>>, icon: Option<string>): (r: Result<FastCommand>)
    ensures r.Err? <==> command.Some? && python.Some?
    ensures r.Err? ==> r.error.ValueError?
    ensures r.Ok? ==> r.value == FastCommand(name, activation, command, python, params, commandVars, icon)
  {
    if command.Some? && python.Some? then Err(ValueError("both command and python cannot be defined"))
    else Ok(FastCommand(name, activation, command, python, params, commandVars, icon))
  }

  /** A concatenation is well formed exactly when both halves are. */
  lemma {:induction false} WellFormedAppend(a: seq<Item>, b: seq<Item>)
    ensures WellFormedSeq(a + b) <==> WellFormedSeq(a) && WellFormedSeq(b)
    decreases |a|
  {
    if |a| > 0 {
      assert (a + b)[0] == a[0];
      assert (a + b)[1..] == a[1..] + b;
      WellFormedAppend(a[1..], b);
    } else {
      assert a + b == b;
    }
  }

  /** `ContextMenu.add_items`: the new items follow the existing ones, in
      order, and the menu keeps its name, type and icon. */
  function AddItems(menu: Item, items: seq<Item>): (r: Item)
    requires menu.IsMenu()
    ensures r.IsMenu() && r.name == menu.name && r.menuType == menu.menuType && r.icon == menu.icon
    ensures |r.subItems| == |menu.subItems| + |items|
    ensures r.subItems[..|menu.subItems|] == menu.subItems && r.subItems[|menu.subItems|..] == items
    ensures WellFormedSeq(r.subItems) <==> WellFormedSeq(menu.subItems) && WellFormedSeq(items)
  {
    WellFormedAppend(menu.subItems, items);
    menu.(subItems := menu.subItems + items)
  }
}
