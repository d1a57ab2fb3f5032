/** What the generated Nautilus extension promises, proved about the walk of
    `Nautilus`: every counter value names one thing only, every variable is
    declared before it is used, and every command gets its own handler, of
    its kind, connected to its item. */
module NautilusProofs {
  import opened Wrappers
  import opened MenuTree
  import opened LinuxCode
  import opened Nautilus
  import Strs
  import CodeBuilder

  // ---------------------------------------------------------------------
  // Numbering: the ids of the declared variables and of the handlers.

  /** The counter value a statement declares a variable with, if any. */
  function DeclId(s: Stmt): seq<nat> {
    if s.NewItem? || s.NewMenu? then [s.id] else []
  }

  /** The counter values of the declared items and menus, in order. */
  function DeclIds(stmts: seq<Stmt>): seq<nat> {
    if |stmts| == 0 then [] else DeclId(stmts[0]) + DeclIds(stmts[1..])
  }

  /** The counter values of the handlers, in order. */
  function HandlerIds(funcs: seq<Handler>): seq<nat> {
    if |funcs| == 0 then [] else [funcs[0].id] + HandlerIds(funcs[1..])
  }

  predicate Increasing(xs: seq<nat>) {
    forall i, j :: 0 <= i < j < |xs| ==> xs[i] < xs[j]
  }

  predicate Within(xs: seq<nat>, lo: nat, hi: nat) {
    forall i :: 0 <= i < |xs| ==> lo <= xs[i] < hi
  }

  /** The part a walk appends from counter `c` uses each value of
      `[c, next)` for exactly one variable or handler: the declarations and
      the handlers are each numbered in increasing order, never share a
      value, and together account for the whole advance. */
  predicate Numbered(o: Out, c: nat) {
    var d := DeclIds(o.stmts);
    var h := HandlerIds(o.funcs);
    && c <= o.next
    && Increasing(d) && Within(d, c, o.next)
    && Increasing(h) && Within(h, c, o.next)
    && (forall i, j :: 0 <= i < |d| && 0 <= j < |h| ==> d[i] != h[j])
    && |d| + |h| == o.next - c
  }

  lemma {:induction false} DeclIdsAppend(a: seq<Stmt>, b: seq<Stmt>)
    ensures DeclIds(a + b) == DeclIds(a) + DeclIds(b)
    decreases |a|
  {
    if |a| == 0 {
      assert a + b == b;
    } else {
      assert (a + b)[1..] == a[1..] + b;
      DeclIdsAppend(a[1..], b);
    }
  }

  lemma {:induction false} HandlerIdsAppend(a: seq<Handler>, b: seq<Handler>)
    ensures HandlerIds(a + b) == HandlerIds(a) + HandlerIds(b)
    decreases |a|
  {
    if |a| == 0 {
      assert a + b == b;
    } else {
      assert (a + b)[1..] == a[1..] + b;
      HandlerIdsAppend(a[1..], b);
    }
  }

  /** Two increasing runs over adjacent ranges make one increasing run. */
  lemma IncreasingAppend(x: seq<nat>, y: seq<nat>, lo: nat, mid: nat, hi: nat)
    requires Increasing(x) && Within(x, lo, mid) && lo <= mid <= hi
    requires Increasing(y) && Within(y, mid, hi)
    ensures Increasing(x + y) && Within(x + y, lo, hi)
  {
    forall i | 0 <= i < |x + y|
      ensures lo <= (x + y)[i] < hi
    {
      if i >= |x| {
        assert (x + y)[i] == y[i - |x|];
      }
    }
    forall i, j | 0 <= i < j < |x + y|
      ensures (x + y)[i] < (x + y)[j]
    {
      if j >= |x| {
        assert (x + y)[j] == y[j - |x|];
      }
      if i >= |x| {
        assert (x + y)[i] == y[i - |x|];
      }
    }
  }


  /** Numbered parts over adjacent ranges make a numbered whole. */
  lemma ThenNumbered(a: Out, b: Out, c: nat)
    requires Numbered(a, c) && Numbered(b, a.next)
    ensures Numbered(Then(a, b), c)
  {
    var o := Then(a, b);
    DeclIdsAppend(a.stmts, b.stmts);
    HandlerIdsAppend(a.funcs, b.funcs);
    var da, db := DeclIds(a.stmts), DeclIds(b.stmts);
    var ha, hb := HandlerIds(a.funcs), HandlerIds(b.funcs);
    IncreasingAppend(da, db, c, a.next, b.next);
    IncreasingAppend(ha, hb, c, a.next, b.next);
    forall i, j | 0 <= i < |da + db| && 0 <= j < |ha + hb|
      ensures (da + db)[i] != (ha + hb)[j]
    {
      if i < |da| && j >= |ha| {
        assert (ha + hb)[j] == hb[j - |ha|];
      } else if i >= |da| && j < |ha| {
        assert (da + db)[i] == db[i - |da|];
      } else if i >= |da| && j >= |ha| {
        assert (da + db)[i] == db[i - |da|] && (ha + hb)[j] == hb[j - |ha|];
      }
    }
  }

  lemma {:induction false} BodyNumbered(c: nat, name: string, items: seq<Item>)
    ensures Numbered(BuildBody(c, name, items), c)
    decreases SizeSeq(items), 2
  {
    var top := Out(c + 2, [NewItem(c, name), NewMenu(c + 1), SetSubmenu(c, c + 1)], [], [], []);
    Unfold3Ids(NewItem(c, name), NewMenu(c + 1), SetSubmenu(c, c + 1));
    assert DeclIds(top.stmts) == [c, c + 1];
    ItemsNumbered(c + 2, c + 1, items);
    ThenNumbered(top, BuildItems(c + 2, c + 1, items), c);
  }

  lemma {:induction false} ItemsNumbered(c: nat, menu: nat, items: seq<Item>)
    ensures Numbered(BuildItems(c, menu, items), c)
    decreases SizeSeq(items), 1
  {
    if |items| > 0 {
      SizeSeqSplits(items);
      var head := BuildItem(c, menu, items[0]);
      ItemNumbered(c, menu, items[0]);
      ItemsNumbered(head.next, menu, items[1..]);
      ThenNumbered(head, BuildItems(head.next, menu, items[1..]), c);
    }
  }

  lemma {:induction false} ItemNumbered(c: nat, menu: nat, item: Item)
    ensures Numbered(BuildItem(c, menu, item), c)
    decreases SizeSeq([item]), 0
  {
    SizeSeqSplits([item]);
    match item
    case Menu(name, sub, _, _) =>
      var body := BuildBody(c, name, sub);
      BodyNumbered(c, name, sub);
      var append := Out(body.next, [AppendItem(menu, c)], [], [], []);
      Unfold1(AppendItem(menu, c), {}, {});
      ThenNumbered(body, append, c);
    case Command(name, _, _, _, _, _) =>
      var r := BuildItem(c, menu, item);
      Unfold3Ids(NewItem(c, name), Connect(c, c + 1), AppendItem(menu, c));
      assert DeclIds(r.stmts) == [c];
      assert HandlerIds(r.funcs) == [c + 1];
  }

  /** In the whole script the counter values of the declared variables and
      of the handlers are all different, running from 0 to the counter's
      final value; with `NamesInjective` no two declarations, and no two
      handlers, share a name. */
  lemma ScriptNumbered(name: string, items: seq<Item>)
    ensures Numbered(BuildScriptParts(name, items), 0)
  {
    var body := BuildBody(0, name, items);
    BodyNumbered(0, name, items);
    DeclIdsAppend(body.stmts, [ReturnItem(0)]);
    assert [ReturnItem(0)][1..] == [];
    assert DeclIds([ReturnItem(0)]) == [];
    assert DeclIds(body.stmts) + [] == DeclIds(body.stmts);
  }

  // ---------------------------------------------------------------------
  // Scoping: every variable is declared before a statement refers to it.

  /** The item and the menu a statement declares, if any. */
  function ItemDecl(s: Stmt): set<nat> {
    if s.NewItem? then {s.id} else {}
  }

  function MenuDecl(s: Stmt): set<nat> {
    if s.NewMenu? then {s.id} else {}
  }

  /** The items and the menus that `stmts` declare. */
  function DeclItems(stmts: seq<Stmt>): set<nat> {
    if |stmts| == 0 then {} else ItemDecl(stmts[0]) + DeclItems(stmts[1..])
  }

  function DeclMenus(stmts: seq<Stmt>): set<nat> {
    if |stmts| == 0 then {} else MenuDecl(stmts[0]) + DeclMenus(stmts[1..])
  }

  /** A statement refers only to the given items and menus: an item where an
      item is expected and a menu where a menu is. */
  predicate Refers(s: Stmt, items: set<nat>, menus: set<nat>) {
    match s
    case NewItem(_, _) => true
    case NewMenu(_) => true
    case SetSubmenu(i, m) => i in items && m in menus
    case AppendItem(m, i) => m in menus && i in items
    case Connect(i, _) => i in items
    case ReturnItem(i) => i in items
  }

  /** Read in order, with `items` and `menus` already declared, every
      statement refers only to what is declared before it. */
  predicate Scoped(stmts: seq<Stmt>, items: set<nat>, menus: set<nat>)
    decreases |stmts|
  {
    |stmts| == 0 ||
    (Refers(stmts[0], items, menus) && Scoped(stmts[1..], items + ItemDecl(stmts[0]), menus + MenuDecl(stmts[0])))
  }

  /** The handler id a statement connects, if any. */
  function ConnectOf(s: Stmt): seq<nat> {
    if s.Connect? then [s.handler] else []
  }

  /** The handler ids the `connect` statements name, in order. */
  function Connects(stmts: seq<Stmt>): seq<nat> {
    if |stmts| == 0 then [] else ConnectOf(stmts[0]) + Connects(stmts[1..])
  }

  /** The item a statement connects, if any. */
  function ConnectItemOf(s: Stmt): seq<nat> {
    if s.Connect? then [s.item] else []
  }

  /** The item ids the `connect` statements name, in order. */
  function ConnectItems(stmts: seq<Stmt>): seq<nat> {
    if |stmts| == 0 then [] else ConnectItemOf(stmts[0]) + ConnectItems(stmts[1..])
  }

  /** The k-th `connect` of `stmts` links an item that `stmts` declares with
      the k-th command's caption; with `Numbered`, that declaration is the
      only one of its id. */
  predicate Linked(stmts: seq<Stmt>, cmds: seq<Item>) {
    var items := ConnectItems(stmts);
    |items| == |cmds| &&
    forall k :: 0 <= k < |cmds| ==> NewItem(items[k], cmds[k].name) in stmts
  }

  lemma {:induction false} ConnectItemsAppend(a: seq<Stmt>, b: seq<Stmt>)
    ensures ConnectItems(a + b) == ConnectItems(a) + ConnectItems(b)
    decreases |a|
  {
    if |a| == 0 {
      assert a + b == b;
    } else {
      assert (a + b)[1..] == a[1..] + b;
      ConnectItemsAppend(a[1..], b);
    }
  }

  lemma LinkedAppend(a: seq<Stmt>, b: seq<Stmt>, c1: seq<Item>, c2: seq<Item>)
    requires Linked(a, c1) && Linked(b, c2)
    ensures Linked(a + b, c1 + c2)
  {
    ConnectItemsAppend(a, b);
    var ia, ib := ConnectItems(a), ConnectItems(b);
    forall k | 0 <= k < |c1 + c2|
      ensures NewItem((ia + ib)[k], (c1 + c2)[k].name) in a + b
    {
      if k < |c1| {
        assert (ia + ib)[k] == ia[k] && (c1 + c2)[k] == c1[k];
        assert NewItem(ia[k], c1[k].name) in a;
      } else {
        assert (ia + ib)[k] == ib[k - |c1|] && (c1 + c2)[k] == c2[k - |c1|];
        assert NewItem(ib[k - |c1|], c2[k - |c1|].name) in b;
      }
    }
  }

  /** The items connected in a run of three, and in a single statement. */
  lemma ConnectItems3(x: Stmt, y: Stmt, z: Stmt)
    ensures ConnectItems([x, y, z]) == ConnectItemOf(x) + ConnectItemOf(y) + ConnectItemOf(z)
  {
    Three(x, y, z);
    ConsConnectItems(z, []);
    ConsConnectItems(y, [z]);
    ConsConnectItems(x, [y, z]);
    assert ConnectItems([z]) == ConnectItemOf(z);
  }

  lemma ConsConnectItems(x: Stmt, rest: seq<Stmt>)
    ensures ConnectItems([x] + rest) == ConnectItemOf(x) + ConnectItems(rest)
  {
    assert ([x] + rest)[0] == x && ([x] + rest)[1..] == rest;
  }

  lemma ConnectItems1(x: Stmt)
    ensures ConnectItems([x]) == ConnectItemOf(x)
  {
    assert [x][1..] == [];
  }

  /** The functions over statements, unfolded at the head of a run. */
  lemma ConsIds(x: Stmt, rest: seq<Stmt>)
    ensures DeclIds([x] + rest) == DeclId(x) + DeclIds(rest)
  {
    assert ([x] + rest)[0] == x && ([x] + rest)[1..] == rest;
  }

  lemma ConsDecls(x: Stmt, rest: seq<Stmt>)
    ensures DeclItems([x] + rest) == ItemDecl(x) + DeclItems(rest)
    ensures DeclMenus([x] + rest) == MenuDecl(x) + DeclMenus(rest)
  {
    assert ([x] + rest)[0] == x && ([x] + rest)[1..] == rest;
  }

  lemma ConsConnects(x: Stmt, rest: seq<Stmt>)
    ensures Connects([x] + rest) == ConnectOf(x) + Connects(rest)
  {
    assert ([x] + rest)[0] == x && ([x] + rest)[1..] == rest;
  }

  /** Scoping, unfolded at the head of a run. */
  lemma ConsScoped(x: Stmt, rest: seq<Stmt>, items: set<nat>, menus: set<nat>)
    ensures Scoped([x] + rest, items, menus) <==>
            Refers(x, items, menus) && Scoped(rest, items + ItemDecl(x), menus + MenuDecl(x))
  {
    assert ([x] + rest)[0] == x && ([x] + rest)[1..] == rest;
  }

  /** A run of three, split at its head. */
  lemma Three(x: Stmt, y: Stmt, z: Stmt)
    ensures [x, y, z] == [x] + [y, z] && [y, z] == [y] + [z] && [z] == [z] + []
  {
  }

  /** The functions over statements, unfolded over a run of three. */
  lemma Unfold3(x: Stmt, y: Stmt, z: Stmt)
    ensures DeclIds([x, y, z]) == DeclId(x) + DeclId(y) + DeclId(z)
    ensures Connects([x, y, z]) == ConnectOf(x) + ConnectOf(y) + ConnectOf(z)
    ensures DeclItems([x, y, z]) == ItemDecl(x) + ItemDecl(y) + ItemDecl(z)
    ensures DeclMenus([x, y, z]) == MenuDecl(x) + MenuDecl(y) + MenuDecl(z)
  {
    Unfold3Ids(x, y, z);
    Unfold3Connects(x, y, z);
    Unfold3Items(x, y, z);
    Unfold3Menus(x, y, z);
  }

  lemma Unfold3Ids(x: Stmt, y: Stmt, z: Stmt)
    ensures DeclIds([x, y, z]) == DeclId(x) + DeclId(y) + DeclId(z)
  {
    Three(x, y, z);
    ConsIds(z, []);
    ConsIds(y, [z]);
    ConsIds(x, [y, z]);
    assert DeclIds([z]) == DeclId(z);
  }

  lemma Unfold3Connects(x: Stmt, y: Stmt, z: Stmt)
    ensures Connects([x, y, z]) == ConnectOf(x) + ConnectOf(y) + ConnectOf(z)
  {
    Three(x, y, z);
    ConsConnects(z, []);
    ConsConnects(y, [z]);
    ConsConnects(x, [y, z]);
    assert Connects([z]) == ConnectOf(z);
  }

  lemma Unfold3Items(x: Stmt, y: Stmt, z: Stmt)
    ensures DeclItems([x, y, z]) == ItemDecl(x) + ItemDecl(y) + ItemDecl(z)
  {
    Three(x, y, z);
    ConsDecls(z, []);
    ConsDecls(y, [z]);
    ConsDecls(x, [y, z]);
    assert DeclItems([z]) == ItemDecl(z);
  }

  lemma Unfold3Menus(x: Stmt, y: Stmt, z: Stmt)
    ensures DeclMenus([x, y, z]) == MenuDecl(x) + MenuDecl(y) + MenuDecl(z)
  {
    Three(x, y, z);
    ConsDecls(z, []);
    ConsDecls(y, [z]);
    ConsDecls(x, [y, z]);
    assert DeclMenus([z]) == MenuDecl(z);
  }

  /** Scoping, unfolded over a run of three. */
  lemma Scoped3(x: Stmt, y: Stmt, z: Stmt, items: set<nat>, menus: set<nat>)
    ensures var i1, m1 := items + ItemDecl(x), menus + MenuDecl(x);
            var i2, m2 := i1 + ItemDecl(y), m1 + MenuDecl(y);
            Scoped([x, y, z], items, menus) <==> Refers(x, items, menus) && Refers(y, i1, m1) && Refers(z, i2, m2)
  {
    var i1, m1 := items + ItemDecl(x), menus + MenuDecl(x);
    var i2, m2 := i1 + ItemDecl(y), m1 + MenuDecl(y);
    Three(x, y, z);
    ConsScoped(z, [], i2, m2);
    ConsScoped(y, [z], i1, m1);
    ConsScoped(x, [y, z], items, menus);
  }

  /** The functions over statements, on a single statement. */
  lemma Unfold1(x: Stmt, items: set<nat>, menus: set<nat>)
    ensures DeclIds([x]) == DeclId(x) && Connects([x]) == ConnectOf(x)
    ensures DeclItems([x]) == ItemDecl(x) && DeclMenus([x]) == MenuDecl(x)
    ensures Scoped([x], items, menus) <==> Refers(x, items, menus)
  {
    assert [x][1..] == [];
  }

  /** What a run declares, split at any point. */
  lemma {:induction false} DeclsAppend(a: seq<Stmt>, b: seq<Stmt>)
    ensures DeclItems(a + b) == DeclItems(a) + DeclItems(b)
    ensures DeclMenus(a + b) == DeclMenus(a) + DeclMenus(b)
    decreases |a|
  {
    if |a| == 0 {
      assert a + b == b;
    } else {
      assert (a + b)[0] == a[0];
      assert (a + b)[1..] == a[1..] + b;
      DeclsAppend(a[1..], b);
    }
  }

  /** A scoped run followed by a run scoped by what the first declared is
      scoped as a whole. */
  lemma {:induction false} ScopedAppend(a: seq<Stmt>, b: seq<Stmt>, items: set<nat>, menus: set<nat>)
    requires Scoped(a, items, menus)
    requires Scoped(b, items + DeclItems(a), menus + DeclMenus(a))
    ensures Scoped(a + b, items, menus)
    decreases |a|
  {
    if |a| == 0 {
      assert a + b == b;
      assert items + DeclItems(a) == items && menus + DeclMenus(a) == menus;
    } else {
      var i1, m1 := items + ItemDecl(a[0]), menus + MenuDecl(a[0]);
      assert (a + b)[0] == a[0];
      assert (a + b)[1..] == a[1..] + b;
      assert i1 + DeclItems(a[1..]) == items + DeclItems(a);
      assert m1 + DeclMenus(a[1..]) == menus + DeclMenus(a);
      ScopedAppend(a[1..], b, i1, m1);
    }
  }

  /** A body is scoped whatever was declared before it, and declares its
      top item, which is what the enclosing menu appends. */
  lemma {:induction false} BodyScoped(c: nat, name: string, items: seq<Item>, known: set<nat>, menus: set<nat>)
    ensures Scoped(BuildBody(c, name, items).stmts, known, menus)
    ensures c in DeclItems(BuildBody(c, name, items).stmts)
    decreases SizeSeq(items), 2
  {
    var top := [NewItem(c, name), NewMenu(c + 1), SetSubmenu(c, c + 1)];
    Unfold3(NewItem(c, name), NewMenu(c + 1), SetSubmenu(c, c + 1));
    Scoped3(NewItem(c, name), NewMenu(c + 1), SetSubmenu(c, c + 1), known, menus);
    assert DeclItems(top) == {c};
    assert DeclMenus(top) == {c + 1};
    assert known + {c} + {} == known + {c};
    ItemsScoped(c + 2, c + 1, items, known + {c}, menus + {c + 1});
    ScopedAppend(top, BuildItems(c + 2, c + 1, items).stmts, known, menus);
    DeclsAppend(top, BuildItems(c + 2, c + 1, items).stmts);
  }

  lemma {:induction false} ItemsScoped(c: nat, menu: nat, items: seq<Item>, known: set<nat>, menus: set<nat>)
    requires menu in menus
    ensures Scoped(BuildItems(c, menu, items).stmts, known, menus)
    decreases SizeSeq(items), 1
  {
    if |items| > 0 {
      SizeSeqSplits(items);
      var head := BuildItem(c, menu, items[0]);
      ItemScoped(c, menu, items[0], known, menus);
      ItemsScoped(head.next, menu, items[1..], known + DeclItems(head.stmts), menus + DeclMenus(head.stmts));
      assert BuildItems(c, menu, items).stmts == head.stmts + BuildItems(head.next, menu, items[1..]).stmts;
      ScopedAppend(head.stmts, BuildItems(head.next, menu, items[1..]).stmts, known, menus);
    }
  }

  lemma {:induction false} ItemScoped(c: nat, menu: nat, item: Item, known: set<nat>, menus: set<nat>)
    requires menu in menus
    ensures Scoped(BuildItem(c, menu, item).stmts, known, menus)
    decreases SizeSeq([item]), 0
  {
    SizeSeqSplits([item]);
    match item
    case Menu(name, sub, _, _) =>
      var body := BuildBody(c, name, sub);
      BodyScoped(c, name, sub, known, menus);
      Unfold1(AppendItem(menu, c), known + DeclItems(body.stmts), menus + DeclMenus(body.stmts));
      ScopedAppend(body.stmts, [AppendItem(menu, c)], known, menus);
    case Command(name, _, _, _, _, _) =>
      Scoped3(NewItem(c, name), Connect(c, c + 1), AppendItem(menu, c), known, menus);
  }

  /** The whole body of the items method refers to nothing undeclared,
      starting from nothing, and its return names the top item. */
  lemma ScriptScoped(name: string, items: seq<Item>)
    ensures Scoped(BuildScriptParts(name, items).stmts, {}, {})
  {
    var body := BuildBody(0, name, items);
    BodyScoped(0, name, items, {}, {});
    Unfold1(ReturnItem(0), {} + DeclItems(body.stmts), {} + DeclMenus(body.stmts));
    ScopedAppend(body.stmts, [ReturnItem(0)], {}, {});
  }

  // ---------------------------------------------------------------------
  // Handlers: one per command, of the command's kind, connected in order.

  /** The command leaves of a forest, in the order the walk meets them. */
  function Commands(items: seq<Item>): (r: seq<Item>)
    ensures forall i :: 0 <= i < |r| ==> r[i].Command?
    decreases SizeSeq(items), 1
  {
    if |items| == 0 then []
    else
      SizeSeqSplits(items);
      ItemCommands(items[0]) + Commands(items[1..])
  }

  function ItemCommands(item: Item): (r: seq<Item>)
    ensures forall i :: 0 <= i < |r| ==> r[i].Command?
    decreases SizeSeq([item]), 0
  {
    SizeSeqSplits([item]);
    match item
    case Menu(_, sub, _, _) => Commands(sub)
    case Command(_, _, _, _, _, _) => [item]
  }

  /** The directories and the modules of the callables among `cmds`, in
      order. */
  function DirsOf(cmds: seq<Item>): seq<string> {
    if |cmds| == 0 then [] else DirOf(cmds[0]) + DirsOf(cmds[1..])
  }

  function ModulesOf(cmds: seq<Item>): seq<string> {
    if |cmds| == 0 then [] else ModuleOf(cmds[0]) + ModulesOf(cmds[1..])
  }

  /** The directory and the module of one command's callable, if any. */
  function DirOf(cmd: Item): seq<string> {
    if cmd.Command? && cmd.python.Some? then [cmd.python.value.dirPath] else []
  }

  function ModuleOf(cmd: Item): seq<string> {
    if cmd.Command? && cmd.python.Some? then [cmd.python.value.moduleName] else []
  }

  lemma {:induction false} DirsAppend(a: seq<Item>, b: seq<Item>)
    ensures DirsOf(a + b) == DirsOf(a) + DirsOf(b)
    decreases |a|
  {
    if |a| == 0 {
      assert a + b == b;
    } else {
      assert (a + b)[0] == a[0];
      assert (a + b)[1..] == a[1..] + b;
      DirsAppend(a[1..], b);
    }
  }

  lemma {:induction false} ModulesAppend(a: seq<Item>, b: seq<Item>)
    ensures ModulesOf(a + b) == ModulesOf(a) + ModulesOf(b)
    decreases |a|
  {
    if |a| == 0 {
      assert a + b == b;
    } else {
      assert (a + b)[0] == a[0];
      assert (a + b)[1..] == a[1..] + b;
      ModulesAppend(a[1..], b);
    }
  }

  lemma {:induction false} ConnectsAppend(a: seq<Stmt>, b: seq<Stmt>)
    ensures Connects(a + b) == Connects(a) + Connects(b)
    decreases |a|
  {
    if |a| == 0 {
      assert a + b == b;
    } else {
      assert (a + b)[1..] == a[1..] + b;
      ConnectsAppend(a[1..], b);
    }
  }

  /** The i-th handler is the one the i-th command calls for. */
  predicate HandlersFor(funcs: seq<Handler>, cmds: seq<Item>) {
    |funcs| == |cmds| &&
    forall i :: 0 <= i < |funcs| ==> cmds[i].Command? && funcs[i] == HandlerOf(funcs[i].id, cmds[i])
  }

  lemma HandlersForAppend(f1: seq<Handler>, c1: seq<Item>, f2: seq<Handler>, c2: seq<Item>)
    requires HandlersFor(f1, c1) && HandlersFor(f2, c2)
    ensures HandlersFor(f1 + f2, c1 + c2)
  {
    forall i | 0 <= i < |f1 + f2|
      ensures (c1 + c2)[i].Command? && (f1 + f2)[i] == HandlerOf((f1 + f2)[i].id, (c1 + c2)[i])
    {
      if i >= |f1| {
        assert (f1 + f2)[i] == f2[i - |f1|] && (c1 + c2)[i] == c2[i - |c1|];
      }
    }
  }

  /** What a walk appends serves exactly the commands `cmds`: the i-th
      handler is the i-th command's, the i-th `connect` links the item
      declared with the i-th command's caption to that handler, and the
      directories and modules are the callables', in order. */
  predicate Serves(o: Out, cmds: seq<Item>) {
    && HandlersFor(o.funcs, cmds)
    && Connects(o.stmts) == HandlerIds(o.funcs)
    && Linked(o.stmts, cmds)
    && o.dirs == DirsOf(cmds)
    && o.imports == ModulesOf(cmds)
  }

  lemma ThenServes(a: Out, b: Out, first: seq<Item>, rest: seq<Item>)
    requires Serves(a, first) && Serves(b, rest)
    ensures Serves(Then(a, b), first + rest)
  {
    HandlersForAppend(a.funcs, first, b.funcs, rest);
    ConnectsAppend(a.stmts, b.stmts);
    HandlerIdsAppend(a.funcs, b.funcs);
    LinkedAppend(a.stmts, b.stmts, first, rest);
    DirsAppend(first, rest);
    ModulesAppend(first, rest);
  }

  lemma {:induction false} BodyServes(c: nat, name: string, items: seq<Item>)
    ensures Serves(BuildBody(c, name, items), Commands(items))
    decreases SizeSeq(items), 2
  {
    var top := Out(c + 2, [NewItem(c, name), NewMenu(c + 1), SetSubmenu(c, c + 1)], [], [], []);
    Unfold3(NewItem(c, name), NewMenu(c + 1), SetSubmenu(c, c + 1));
    assert Connects(top.stmts) == [];
    ConnectItems3(NewItem(c, name), NewMenu(c + 1), SetSubmenu(c, c + 1));
    assert Serves(top, []);
    ItemsServes(c + 2, c + 1, items);
    assert [] + Commands(items) == Commands(items);
    ThenServes(top, BuildItems(c + 2, c + 1, items), [], Commands(items));
  }

  lemma {:induction false} ItemsServes(c: nat, menu: nat, items: seq<Item>)
    ensures Serves(BuildItems(c, menu, items), Commands(items))
    decreases SizeSeq(items), 1
  {
    if |items| > 0 {
      SizeSeqSplits(items);
      var head := BuildItem(c, menu, items[0]);
      ItemServes(c, menu, items[0]);
      ItemsServes(head.next, menu, items[1..]);
      ThenServes(head, BuildItems(head.next, menu, items[1..]), ItemCommands(items[0]), Commands(items[1..]));
    } else {
      assert Serves(BuildItems(c, menu, items), []);
    }
  }

  lemma {:induction false} ItemServes(c: nat, menu: nat, item: Item)
    ensures Serves(BuildItem(c, menu, item), ItemCommands(item))
    decreases SizeSeq([item]), 0
  {
    SizeSeqSplits([item]);
    match item
    case Menu(name, sub, _, _) =>
      var body := BuildBody(c, name, sub);
      BodyServes(c, name, sub);
      var append := Out(body.next, [AppendItem(menu, c)], [], [], []);
      Unfold1(AppendItem(menu, c), {}, {});
      ConnectItems1(AppendItem(menu, c));
      assert Serves(append, []);
      assert Commands(sub) + [] == Commands(sub);
      ThenServes(body, append, Commands(sub), []);
    case Command(_, _, _, _, _, _) =>
      CommandServes(c, menu, item);
  }

  /** A command leaf serves itself. */
  lemma CommandServes(c: nat, menu: nat, item: Item)
    requires item.Command?
    ensures Serves(BuildItem(c, menu, item), [item])
  {
    var r := BuildItem(c, menu, item);
    var name := item.name;
    assert r.stmts == [NewItem(c, name), Connect(c, c + 1), AppendItem(menu, c)];
    Unfold3Connects(NewItem(c, name), Connect(c, c + 1), AppendItem(menu, c));
    ConnectItems3(NewItem(c, name), Connect(c, c + 1), AppendItem(menu, c));
    assert Connects(r.stmts) == [c + 1];
    assert HandlerIds(r.funcs) == [c + 1];
    assert ConnectItems(r.stmts) == [c];
    assert NewItem(c, name) == r.stmts[0];
    assert [item][1..] == [];
  }

  /** The whole script has one handler per command, of that command's kind
      and in the order of the tree, each connected to its item, and imports
      from exactly the callables' directories and modules. */
  lemma ScriptServes(name: string, items: seq<Item>)
    ensures Serves(BuildScriptParts(name, items), Commands(items))
  {
    var body := BuildBody(0, name, items);
    BodyServes(0, name, items);
    ConnectsAppend(body.stmts, [ReturnItem(0)]);
    Unfold1(ReturnItem(0), {}, {});
    ConnectItems1(ReturnItem(0));
    LinkedAppend(body.stmts, [ReturnItem(0)], Commands(items), []);
    assert Commands(items) + [] == Commands(items);
  }

  /** The text of the extension holds the handler method of every
      command. */
  lemma ScriptFileHandlers(name: string, items: seq<Item>, activation: string)
    ensures var parts := BuildScriptParts(name, items);
            && |parts.funcs| == |Commands(items)|
            && forall k :: 0 <= k < |parts.funcs| ==>
                 Strs.Occurs(RenderHandler(parts.funcs[k]), BuildScript(name, items, activation))
  {
    var parts := BuildScriptParts(name, items);
    var b := ScriptBuilder(name, items, activation);
    ScriptServes(name, items);
    assert b.funcs == RenderHandlers(parts.funcs);
    forall k | 0 <= k < |parts.funcs|
      ensures Strs.Occurs(RenderHandler(parts.funcs[k]), BuildScript(name, items, activation))
    {
      CodeBuilder.HandlerInFile(b, k);
    }
  }

  /** For every callable the text of the extension imports its module and
      appends its directory to `sys.path`. */
  lemma ScriptFileCallables(name: string, items: seq<Item>, activation: string)
    ensures forall cmd :: cmd in Commands(items) && cmd.Command? && cmd.python.Some? ==>
              && Strs.Occurs("import " + cmd.python.value.moduleName, BuildScript(name, items, activation))
              && Strs.Occurs("sys.path.append(\"" + cmd.python.value.dirPath + "\")", BuildScript(name, items, activation))
  {
    var b := ScriptBuilder(name, items, activation);
    ScriptServes(name, items);
    forall cmd | cmd in Commands(items) && cmd.Command? && cmd.python.Some?
      ensures Strs.Occurs("import " + cmd.python.value.moduleName, BuildScript(name, items, activation))
      ensures Strs.Occurs("sys.path.append(\"" + cmd.python.value.dirPath + "\")", BuildScript(name, items, activation))
    {
      CallableListed(Commands(items), cmd);
      assert cmd.python.value.moduleName in b.imports;
      assert cmd.python.value.dirPath in b.scriptDirs;
      CodeBuilder.ImportInFile(b, cmd.python.value.moduleName);
      CodeBuilder.DirInFile(b, cmd.python.value.dirPath);
    }
  }

  /** A callable among the commands has its module and directory listed. */
  lemma {:induction false} CallableListed(cmds: seq<Item>, cmd: Item)
    requires cmd in cmds && cmd.Command? && cmd.python.Some?
    ensures cmd.python.value.moduleName in ModulesOf(cmds)
    ensures cmd.python.value.dirPath in DirsOf(cmds)
  {
    if cmds[0] != cmd {
      assert cmd in cmds[1..];
      CallableListed(cmds[1..], cmd);
    }
  }
}
