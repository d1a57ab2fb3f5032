/** `NautilusMenu.build_script_body` of `context_menu/linux_menus.py`: the
    walk that turns a menu tree into the statements of the Nautilus
    extension's items method, its handler methods, and the directories and
    modules the handlers need. One counter numbers every variable and
    handler; each generator call takes the current value and moves it on by
    one. The walk appends to four lists of the emitter object; here each
    step returns what it appends, together with the counter it leaves. */
module Nautilus {
  import opened Wrappers
  import Strs
  import opened MenuTree
  import opened LinuxCode
  import CodeBuilder
  import WinCommands

  /** What a walk appends, and the counter value it leaves behind. */
  datatype Out = Out(next: nat, stmts: seq<Stmt>, funcs: seq<Handler>, dirs: seq<string>, imports: seq<string>)

  /** Nothing appended; the counter stays at `c`. */
  function Empty(c: nat): Out {
    Out(c, [], [], [], [])
  }

  /** `a` appended, then `b`. */
  function Then(a: Out, b: Out): Out {
    Out(b.next, a.stmts + b.stmts, a.funcs + b.funcs, a.dirs + b.dirs, a.imports + b.imports)
  }

  /** The text a command handler passes to `os.system`: a command with no
      shell command and no callable formats `None`. */
  function CommandOrNone(command: Option<string>): (r: string)
    ensures command.Some? ==> r == command.value
    ensures command.None? ==> r == "None"
  {
    match command
    case Some(text) => text
    case None => "None"
  }

  /** The handler a command leaf gets, numbered `id`: a callable wins over a
      shell command. */
  function HandlerOf(id: nat, item: Item): (h: Handler)
    requires item.Command?
    ensures h.id == id
    ensures item.python.Some? <==> h.MethodHandler?
  {
    match item.python
    case Some(f) => MethodHandler(id, f.moduleName, f.funcName)
    case None => CommandHandler(id, CommandOrNone(item.command))
  }

  /** `build_script_body(name, items)` at counter `c`: declares item `c`
      labelled `name` and menu `c + 1`, hangs the menu under the item, and
      walks the items into that menu. Every node of the tree takes two
      counter values, the root included. */
  function BuildBody(c: nat, name: string, items: seq<Item>): (r: Out)
    ensures r.next == c + 2 + 2 * SizeSeq(items)
    ensures |r.stmts| >= 3 && r.stmts[..3] == [NewItem(c, name), NewMenu(c + 1), SetSubmenu(c, c + 1)]
    ensures |r.funcs| == Leaves(items)
    ensures |r.dirs| == |r.imports| == CallableLeaves(items)
    decreases SizeSeq(items), 2
  {
    Then(Out(c + 2, [NewItem(c, name), NewMenu(c + 1), SetSubmenu(c, c + 1)], [], [], []),
         BuildItems(c + 2, c + 1, items))
  }

  /** The loop of `build_script_body` over the items of menu `menu`. */
  function BuildItems(c: nat, menu: nat, items: seq<Item>): (r: Out)
    ensures r.next == c + 2 * SizeSeq(items)
    ensures |r.funcs| == Leaves(items)
    ensures |r.dirs| == |r.imports| == CallableLeaves(items)
    decreases SizeSeq(items), 1
  {
    if |items| == 0 then Empty(c)
    else
      SizeSeqSplits(items);
      var head := BuildItem(c, menu, items[0]);
      Then(head, BuildItems(head.next, menu, items[1..]))
  }

  /** One iteration of the loop. A submenu is appended to `menu` as item
      `c`, the item its own body declares first (`ForwardReference` shows
      this is the name `get_next_item` predicts); the statement is emitted
      after that body. A command declares
      its item, takes the next counter value for its handler, connects the
      two and appends the item to `menu`; a callable also contributes its
      directory and module. */
  function BuildItem(c: nat, menu: nat, item: Item): (r: Out)
    ensures r.next == c + 2 * SizeSeq([item])
    ensures |r.funcs| == Leaves([item])
    ensures |r.dirs| == |r.imports| == CallableLeaves([item])
    decreases SizeSeq([item]), 0
  {
    assert [item][1..] == [];
    SizeSeqSplits([item]);
    match item
    case Menu(name, sub, _, _) =>
      var body := BuildBody(c, name, sub);
      Then(body, Out(body.next, [AppendItem(menu, c)], [], [], []))
    case Command(name, _, python, _, _, _) =>
      var decl := [NewItem(c, name), Connect(c, c + 1), AppendItem(menu, c)];
      match python
      case Some(f) => Out(c + 2, decl, [HandlerOf(c + 1, item)], [f.dirPath], [f.moduleName])
      case None => Out(c + 2, decl, [HandlerOf(c + 1, item)], [], [])
  }

  /** The append of a submenu is written before its body is generated, by
      the name `get_next_item` peeks at: that name is the one the body's
      first `generate_item` then gives its top item, whatever the caption,
      and the append is emitted after the body. */
  lemma ForwardReference(c: nat, menu: nat, name: string, sub: seq<Item>,
                         menuType: Option<string>, icon: Option<string>)
    ensures BuildItem(c, menu, Menu(name, sub, menuType, icon)).stmts
            == BuildBody(c, name, sub).stmts + [AppendItem(menu, c)]
    ensures BuildBody(c, name, sub).stmts[0] == NewItem(c, name)
    ensures Render(AppendItem(menu, c)) == AppendItemCode(MenuName(menu), GetNextItem(c).0)
    ensures GetNextItem(c).0 == GenerateItem(c, name).0.name
  {
    assert GetNextItem(c).0 == GenerateItem(c, name).0.name;
  }

  /** The statements, handlers, directories and modules of the whole script:
      the walk from counter 0, then the return of the top item. */
  function BuildScriptParts(name: string, items: seq<Item>): (r: Out)
    ensures |r.stmts| >= 4 && r.stmts[0] == NewItem(0, name) && r.stmts[|r.stmts| - 1] == ReturnItem(0)
    ensures r.next == 2 + 2 * SizeSeq(items)
    ensures |r.funcs| == Leaves(items)
  {
    var body := BuildBody(0, name, items);
    body.(stmts := body.stmts + [ReturnItem(0)])
  }

  /** Every statement as the text the emitter appends. */
  function RenderAll(stmts: seq<Stmt>): (r: seq<string>)
    ensures |r| == |stmts|
    ensures forall i :: 0 <= i < |stmts| ==> r[i] == Render(stmts[i])
  {
    seq(|stmts|, i requires 0 <= i < |stmts| => Render(stmts[i]))
  }

  /** Every handler as the method text the emitter appends. */
  function RenderHandlers(funcs: seq<Handler>): (r: seq<string>)
    ensures |r| == |funcs|
    ensures forall i :: 0 <= i < |funcs| ==> r[i] == RenderHandler(funcs[i])
  {
    seq(|funcs|, i requires 0 <= i < |funcs| => RenderHandler(funcs[i]))
  }

  /** The CodeBuilder `build_script` hands its lists to: the body opens with
      the top item and closes by returning it, there is one method per
      command, and the type is compared upper-cased. */
  function ScriptBuilder(name: string, items: seq<Item>, activation: string): (b: CodeBuilder.Builder)
    ensures |b.bodyCommands| >= 4
    ensures b.bodyCommands[0] == Render(NewItem(0, name))
    ensures b.bodyCommands[|b.bodyCommands| - 1] == Render(ReturnItem(0))
    ensures |b.funcs| == Leaves(items)
    ensures b.activation == Strs.Upper(activation)
    ensures CodeBuilder.Distinct(b.scriptDirs) && CodeBuilder.Distinct(b.imports)
  {
    var parts := BuildScriptParts(name, items);
    CodeBuilder.NewBuilder(RenderAll(parts.stmts), parts.dirs, RenderHandlers(parts.funcs), parts.imports, activation)
  }

  /** `build_script()`: the text of the extension. It opens with the fixed
      head, and its items method, the background one exactly for the two
      background types, closes the file. */
  function BuildScript(name: string, items: seq<Item>, activation: string): (r: string)
    ensures CodeBuilder.FileHead(ScriptBuilder(name, items, activation)) <= r
    ensures Strs.EndsWith(r, CodeBuilder.FileTail(ScriptBuilder(name, items, activation)))
    ensures CodeBuilder.ItemsMethod(ScriptBuilder(name, items, activation)) == BackgroundItems
            <==> Strs.Upper(activation) in WinCommands.BackgroundTypes
  {
    CodeBuilder.Compile(ScriptBuilder(name, items, activation))
  }

  /** The extension's last statement returns the top item: the file ends
      with that statement, indented, and the trailing line. */
  lemma ReturnsTopItem(name: string, items: seq<Item>, activation: string)
    ensures Strs.EndsWith(BuildScript(name, items, activation),
                          CodeBuilder.Indent + "return menuitem0," + CodeBuilder.Trailer)
  {
    ReturnRoot();
    CodeBuilder.LastLine(ScriptBuilder(name, items, activation), "return menuitem0,");
  }

  /** `os.path.join(a, b)` on POSIX: an absolute `b` replaces `a`; otherwise
      a slash separates them unless `a` is empty or already ends in one. */
  function PathJoin(a: string, b: string): (r: string)
    ensures |b| > 0 && b[0] == '/' ==> r == b
    ensures !(|b| > 0 && b[0] == '/') && (|a| == 0 || a[|a| - 1] == '/') ==> r == a + b
    ensures !(|b| > 0 && b[0] == '/') && |a| > 0 && a[|a| - 1] != '/' ==> r == a + "/" + b
  {
    if |b| > 0 && b[0] == '/' then b
    else if |a| == 0 || a[|a| - 1] == '/' then a + b
    else a + "/" + b
  }

  /** Where `compile()` writes the extension of the menu `name`, given the
      user's home directory. */
  function ExtensionPath(home: string, name: string): string {
    PathJoin(ExtensionsDir(home), name + ".py")
  }

  /** The extension lands in the user's Nautilus extension directory, named
      after the menu; a menu name that is an absolute path escapes it. */
  lemma ExtensionPathShape(home: string, name: string)
    ensures |name| > 0 && name[0] == '/' ==> ExtensionPath(home, name) == name + ".py"
    ensures !(|name| > 0 && name[0] == '/') ==>
              ExtensionPath(home, name) == ExtensionsDir(home) + "/" + (name + ".py")
    ensures |home| > 0 && home[|home| - 1] != '/' ==>
              ExtensionsDir(home) == home + "/" + ".local/share/" + "nautilus-python" + "/" + "extensions"
    ensures |home| == 0 || home[|home| - 1] == '/' ==>
              ExtensionsDir(home) == home + ".local/share/" + "nautilus-python" + "/" + "extensions"
  {
    ShareDir(home);
  }

  /** The directory the extensions go to. */
  function ExtensionsDir(home: string): string {
    PathJoin(PathJoin(PathJoin(home, ".local/share/"), "nautilus-python"), "extensions")
  }

  /** The share directory ends in a slash, so the next part is added
      without one. */
  lemma ShareDir(home: string)
    ensures var share := PathJoin(home, ".local/share/");
            |share| > 0 && share[|share| - 1] == '/'
            && PathJoin(share, "nautilus-python") == share + "nautilus-python"
  {
    var t := ".local/share/";
    assert t[0] == '.' && t[|t| - 1] == '/';
    assert "nautilus-python"[0] == 'n';
  }
}
