/** The one-command menu of the Linux tests: the statements the walk emits
    for a menu holding a single shell command of the same name. */
module LinuxExamples {
  import opened Wrappers
  import opened MenuTree
  import opened LinuxCode
  import Nautilus
  import Strs

  /** The menu `TestCommand` with its one command: the top item 0 and its
      menu 1, then the command's item 2 connected to handler 3 and appended
      to menu 1, and finally the return of the top item. */
  lemma OneCommandScript(name: string, cmd: string, params: string, vars: Option<seq<string>>)
    ensures var parts := Nautilus.BuildScriptParts(name, [Command(name, Some(cmd), None, params, vars, None)]);
            && parts.next == 4
            && parts.stmts == [NewItem(0, name), NewMenu(1), SetSubmenu(0, 1),
                               NewItem(2, name), Connect(2, 3), AppendItem(1, 2), ReturnItem(0)]
            && parts.funcs == [CommandHandler(3, cmd)]
            && parts.dirs == [] && parts.imports == []
  {
    var item := Command(name, Some(cmd), None, params, vars, None);
    var leaf := Nautilus.BuildItem(2, 1, item);
    assert leaf.stmts == [NewItem(2, name), Connect(2, 3), AppendItem(1, 2)];
    var rest := Nautilus.BuildItems(4, 1, []);
    assert [item][1..] == [];
    assert Nautilus.BuildItems(2, 1, [item]) == Nautilus.Then(leaf, rest);
  }

  /** The names the counter values of that example give. */
  lemma ExampleNames()
    ensures ItemName(0) == "menuitem0" && MenuName(1) == "submenu1"
    ensures ItemName(2) == "menuitem2" && HandlerName(3) == "method_handler3"
  {
    Digit(0);
    Digit(1);
    Digit(2);
    Digit(3);
  }

  lemma Digit(n: nat)
    requires n < 10
    ensures Strs.NatToString(n) == [Strs.DigitChar(n)]
  {
  }

  /** The statements of that example without a caption render as the lines
      the Linux tests list. */
  lemma MenuLine()
    ensures Render(NewMenu(1)) == "submenu1 = Nautilus.Menu()"
  {
    ExampleNames();
    MenuText();
  }

  lemma MenuText()
    ensures "submenu1" + " = " + "Nautilus.Menu()" == "submenu1 = Nautilus.Menu()"
  {
  }

  lemma SetSubmenuLine()
    ensures Render(SetSubmenu(0, 1)) == "menuitem0.set_submenu(submenu1)"
  {
    ExampleNames();
    SetSubmenuText();
  }

  lemma SetSubmenuText()
    ensures SetSubmenuCode("menuitem0", "submenu1") == "menuitem0.set_submenu(submenu1)"
  {
  }

  /** The connection names item 2 and handler 3. */
  lemma ConnectLine()
    ensures Render(Connect(2, 3)) == ConnectCode("menuitem2", "self.method_handler3")
  {
    ExampleNames();
  }

  lemma AppendLine()
    ensures Render(AppendItem(1, 2)) == "submenu1.append_item(menuitem2)"
  {
    ExampleNames();
    AppendText();
  }

  lemma AppendText()
    ensures AppendItemCode("submenu1", "menuitem2") == "submenu1.append_item(menuitem2)"
  {
  }
}
