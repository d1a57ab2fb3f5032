/** What `RegistryMenu.compile` writes, stated as a reference map built
    straight from the tree, and the `assert_*` checks of the in-memory store
    that this map satisfies. */
module WinProofs {
  import opened Wrappers
  import opened MenuTree
  import opened RegistryStore
  import opened WinCommands
  import opened WinKeys
  import opened WinMenus

  /** Names hold no backslash, and siblings have distinct names, at every
      level of the tree. */
  predicate WellNamed(items: seq<Item>)
    decreases SizeSeq(items)
  {
    |items| == 0 ||
    (SizeSeqSplits(items);
     && '\\' !in items[0].name
     && items[0].name !in Names(items[1..])
     && (items[0].Menu? ==> WellNamed(items[0].subItems))
     && WellNamed(items[1..]))
  }

  /** Nothing is stored below `path` under any of `names`. */
  predicate Fresh(s: Store, path: string, names: set<string>) {
    forall k :: k in s && Below(path, k) ==> ChildName(path, k) !in names
  }

  /** `a` is part of `b`: every key of `a` is in `b` with the same values. */
  predicate SubMap(a: Store, b: Store) {
    forall k :: k in a ==> k in b && b[k] == a[k]
  }

  /** The keys one item of the tree puts under `path`: a menu key with its
      attributes (and the root's icon) plus its `shell` key and everything
      below it; or a command key named after the command (with its own icon)
      plus its `command` key holding the command line. */
  function ExpectedItem(item: Item, path: string, ctx: Ctx): Store
    requires CommandsBraceFree([item]) && Resolvable([item], ctx)
    decreases SizeSeq([item]), 0
  {
    assert [item][1..] == [];
    SizeSeqSplits([item]);
    var key := Key(path, item.name);
    match item
    case Menu(name, sub, _, _) =>
      map[key := NewKeyValues + MenuAttrs(name, ctx.rootIcon), Key(key, "shell") := NewKeyValues]
      + Expected(sub, Key(key, "shell"), ctx)
    case Command(name, command, python, params, vars, icon) =>
      var text := CommandText(ctx.exe, ctx.background, command, python, params, vars, AssertionError).value;
      map[key := NewKeyValues + CommandAttrs(name, icon), Key(key, "command") := map["" := text]]
  }

  /** The keys a list of siblings puts under `path`, in order. */
  function Expected(items: seq<Item>, path: string, ctx: Ctx): Store
    requires CommandsBraceFree(items) && Resolvable(items, ctx)
    decreases SizeSeq(items), 1
  {
    if |items| == 0 then map[]
    else
      SizeSeqSplits(items);
      assert [items[0]][1..] == [];
      ExpectedItem(items[0], path, ctx) + Expected(items[1..], path, ctx)
  }

  /** Every key of the reference map of one item lies below `path` under
      that item's name. */
  lemma {:induction false} ExpectedItemKeys(item: Item, path: string, ctx: Ctx)
    requires CommandsBraceFree([item]) && Resolvable([item], ctx) && WellNamed([item])
    ensures forall k :: k in ExpectedItem(item, path, ctx) ==> Below(path, k) && ChildName(path, k) == item.name
    decreases SizeSeq([item]), 0
  {
    assert [item][1..] == [];
    SizeSeqSplits([item]);
    var key := Key(path, item.name);
    UnderChild(path, item.name, key);
    match item
    case Menu(name, sub, _, _) =>
      var shell := Key(key, "shell");
      UnderShell(key, shell);
      UnderChild(path, name, shell);
      ExpectedKeys(sub, shell, ctx);
      forall k | k in Expected(sub, shell, ctx)
        ensures Below(path, k) && ChildName(path, k) == name
      {
        UnderShell(key, k);
        UnderChild(path, name, k);
      }
    case Command(name, _, _, _, _, _) =>
      var command := Key(key, "command");
      assert key + "\\" <= command;
      UnderChild(path, name, command);
  }

  /** Every key of the reference map lies below `path` under one of the
      siblings' names. */
  lemma {:induction false} ExpectedKeys(items: seq<Item>, path: string, ctx: Ctx)
    requires CommandsBraceFree(items) && Resolvable(items, ctx) && WellNamed(items)
    ensures forall k :: k in Expected(items, path, ctx) ==> Below(path, k) && ChildName(path, k) in Names(items)
    decreases SizeSeq(items), 1
  {
    if |items| > 0 {
      SizeSeqSplits(items);
      assert [items[0]][1..] == [];
      ExpectedItemKeys(items[0], path, ctx);
      ExpectedKeys(items[1..], path, ctx);
    }
  }

  /** Merging stores is associative. */
  lemma MergeAssoc(a: Store, b: Store, c: Store)
    ensures (a + b) + c == a + (b + c)
  {
  }

  /** Creating a menu whose keys are new adds exactly the menu key with its
      attributes and the empty `shell` key. */
  lemma MenuWrites(s: Store, name: string, path: string, icon: Option<string>)
    requires Key(path, name) !in s && Key(Key(path, name), "shell") !in s
    ensures CreateMenu(s, name, path, icon).0 ==
            s + map[Key(path, name) := NewKeyValues + MenuAttrs(name, icon),
                    Key(Key(path, name), "shell") := NewKeyValues]
  {
    var key := Key(path, name);
    var shell := Key(key, "shell");
    assert shell != key by { assert |shell| > |key|; }
    assert ValuesOf(s, key) == NewKeyValues && ValuesOf(s, shell) == NewKeyValues;
    TwoUpdates(s, key, NewKeyValues + MenuAttrs(name, icon), shell, NewKeyValues);
  }

  /** Creating a command whose keys are new adds exactly the command key with
      its attributes and the `command` key holding the line. */
  lemma CommandWrites(s: Store, name: string, path: string, text: string, icon: Option<string>)
    requires Key(path, name) !in s && Key(Key(path, name), "command") !in s
    ensures CreateCommand(s, name, path, text, icon) ==
            s + map[Key(path, name) := NewKeyValues + CommandAttrs(name, icon),
                    Key(Key(path, name), "command") := map["" := text]]
  {
    var key := Key(path, name);
    var cmd := Key(key, "command");
    assert NewKeyValues["" := text] == map["" := text];
    assert cmd != key by { assert |cmd| > |key|; }
    TwoUpdates(s, key, NewKeyValues + CommandAttrs(name, icon), cmd, map["" := text]);
  }

  /** Two updates of distinct keys are a merge of both. */
  lemma TwoUpdates(s: Store, k1: string, v1: Values, k2: string, v2: Values)
    requires k1 != k2
    ensures s[k1 := v1][k2 := v2] == s + map[k1 := v1, k2 := v2]
  {
  }

  /** On a store that holds none of the keys the item would write, walking
      the item adds exactly its reference map. */
  lemma {:induction false} WalkItemExpected(s: Store, item: Item, path: string, ctx: Ctx)
    requires CommandsBraceFree([item]) && Resolvable([item], ctx) && WellNamed([item])
    requires s.Keys !! ExpectedItem(item, path, ctx).Keys
    ensures WalkItem(s, item, path, ctx) == Ok(s + ExpectedItem(item, path, ctx))
    decreases SizeSeq([item]), 0
  {
    assert [item][1..] == [];
    SizeSeqSplits([item]);
    var key := Key(path, item.name);
    var e := ExpectedItem(item, path, ctx);
    assert key in e;
    if item.Menu? {
      var shell := Key(key, "shell");
      var a := map[key := NewKeyValues + MenuAttrs(item.name, ctx.rootIcon), shell := NewKeyValues];
      var sub := Expected(item.subItems, shell, ctx);
      assert shell in e;
      MenuWrites(s, item.name, path, ctx.rootIcon);
      var s0 := s + a;
      forall k | k in sub
        ensures k !in s0
      {
        assert k in e;
        ExpectedBelow(item.subItems, shell, ctx, k);
        assert |k| > |shell| > |key|;
      }
      WalkExpected(s0, item.subItems, shell, ctx);
      MergeAssoc(s, a, sub);
    } else {
      assert Key(key, "command") in e;
      var text := CommandText(ctx.exe, ctx.background, item.command, item.python, item.params,
                              item.commandVars, AssertionError).value;
      CommandWrites(s, item.name, path, text, item.icon);
    }
  }

  /** A key of the reference map of a list of siblings lies below `path`. */
  lemma ExpectedBelow(items: seq<Item>, path: string, ctx: Ctx, k: string)
    requires CommandsBraceFree(items) && Resolvable(items, ctx)
    requires k in Expected(items, path, ctx)
    ensures Below(path, k)
    decreases SizeSeq(items), 1
  {
    SizeSeqSplits(items);
    assert [items[0]][1..] == [];
    if k in Expected(items[1..], path, ctx) {
      ExpectedBelow(items[1..], path, ctx, k);
    } else {
      ExpectedItemBelow(items[0], path, ctx, k);
    }
  }

  lemma ExpectedItemBelow(item: Item, path: string, ctx: Ctx, k: string)
    requires CommandsBraceFree([item]) && Resolvable([item], ctx)
    requires k in ExpectedItem(item, path, ctx)
    ensures Below(path, k)
    decreases SizeSeq([item]), 0
  {
    assert [item][1..] == [];
    SizeSeqSplits([item]);
    var key := Key(path, item.name);
    if item.Menu? {
      var shell := Key(key, "shell");
      if k in Expected(item.subItems, shell, ctx) {
        ExpectedBelow(item.subItems, shell, ctx, k);
        UnderShell(key, k);
        BelowTrans(path, key, k);
      }
    }
  }

  /** On a store that holds none of the keys the walk would write, walking a
      list of siblings adds exactly their reference map. */
  lemma {:induction false} WalkExpected(s: Store, items: seq<Item>, path: string, ctx: Ctx)
    requires CommandsBraceFree(items) && Resolvable(items, ctx) && WellNamed(items)
    requires s.Keys !! Expected(items, path, ctx).Keys
    ensures WalkItems(s, items, path, ctx) == Ok(s + Expected(items, path, ctx))
    decreases SizeSeq(items), 1
  {
    if |items| == 0 {
      assert s + map[] == s;
    } else {
      SizeSeqSplits(items);
      assert [items[0]][1..] == [];
      var eh := ExpectedItem(items[0], path, ctx);
      var er := Expected(items[1..], path, ctx);
      assert WellNamed([items[0]]) by {
        assert [items[0]][1..] == [];
      }
      WalkItemExpected(s, items[0], path, ctx);
      ExpectedItemKeys(items[0], path, ctx);
      ExpectedKeys(items[1..], path, ctx);
      forall k | k in er
        ensures k !in s + eh
      {
        assert k in Expected(items, path, ctx);
      }
      WalkExpected(s + eh, items[1..], path, ctx);
      MergeAssoc(s, eh, er);
    }
  }

  // ---------------------------------------------------------------------
  // The `assert_*` checks the reference map satisfies.

  /** Every item of the forest passes the mock's check for it. */
  predicate Mirrored(st: Store, items: seq<Item>, path: string, ctx: Ctx)
    requires CommandsBraceFree(items) && Resolvable(items, ctx)
    decreases SizeSeq(items), 1
  {
    |items| == 0 ||
    (SizeSeqSplits(items);
     assert [items[0]][1..] == [];
     MirroredItem(st, items[0], path, ctx) && Mirrored(st, items[1..], path, ctx))
  }

  /** A menu passes `assert_context_menu` (with the root's icon when there
      is one) and its children are checked under its `shell` key; a command
      passes `assert_context_command` with its command line (with its own
      icon when it has one). */
  predicate MirroredItem(st: Store, item: Item, path: string, ctx: Ctx)
    requires CommandsBraceFree([item]) && Resolvable([item], ctx)
    decreases SizeSeq([item]), 0
  {
    assert [item][1..] == [];
    SizeSeqSplits([item]);
    match item
    case Menu(name, sub, _, _) =>
      MenuAsserted(st, path, name, ctx.rootIcon) && Mirrored(st, sub, Key(Key(path, name), "shell"), ctx)
    case Command(name, command, python, params, vars, icon) =>
      CommandAsserted(st, path, name, CommandText(ctx.exe, ctx.background, command, python, params, vars, AssertionError).value, icon)
  }

  predicate MenuAsserted(st: Store, path: string, name: string, icon: Option<string>) {
    if icon.Some? then ContextMenuWithIconAsserted(st, path, name, icon.value)
    else ContextMenuAsserted(st, path, name)
  }

  predicate CommandAsserted(st: Store, path: string, name: string, text: string, icon: Option<string>) {
    if icon.Some? then ContextCommandWithIconAsserted(st, path, name, text, icon.value)
    else ContextCommandAsserted(st, path, name, text)
  }

  /** The values `create_menu` leaves on new keys pass the menu check. */
  lemma MenuValuesAsserted(st: Store, path: string, name: string, icon: Option<string>)
    requires Key(path, name) in st && st[Key(path, name)] == NewKeyValues + MenuAttrs(name, icon)
    requires Key(Key(path, name), "shell") in st && st[Key(Key(path, name), "shell")] == NewKeyValues
    ensures MenuAsserted(st, path, name, icon)
  {
  }

  /** The values `create_command` leaves on new keys pass the command check. */
  lemma CommandValuesAsserted(st: Store, path: string, name: string, text: string, icon: Option<string>)
    requires Key(path, name) in st && st[Key(path, name)] == NewKeyValues + CommandAttrs(name, icon)
    requires Key(Key(path, name), "command") in st && st[Key(Key(path, name), "command")] == map["" := text]
    ensures CommandAsserted(st, path, name, text, icon)
  {
  }

  /** Any store that holds the reference map of one item passes the checks
      for that item. */
  lemma {:induction false} ExpectedItemMirrored(st: Store, item: Item, path: string, ctx: Ctx)
    requires CommandsBraceFree([item]) && Resolvable([item], ctx) && WellNamed([item])
    requires SubMap(ExpectedItem(item, path, ctx), st)
    ensures MirroredItem(st, item, path, ctx)
    decreases SizeSeq([item]), 0
  {
    assert [item][1..] == [];
    SizeSeqSplits([item]);
    var key := Key(path, item.name);
    if item.Menu? {
      var shell := Key(key, "shell");
      var sub := Expected(item.subItems, shell, ctx);
      forall k | k in sub
        ensures k != key && k != shell
      {
        ExpectedBelow(item.subItems, shell, ctx, k);
        assert |k| > |shell| > |key|;
      }
      assert key in ExpectedItem(item, path, ctx);
      assert shell in ExpectedItem(item, path, ctx);
      MenuValuesAsserted(st, path, item.name, ctx.rootIcon);
      ExpectedMirrored(st, item.subItems, shell, ctx);
    } else {
      var text := CommandText(ctx.exe, ctx.background, item.command, item.python, item.params,
                              item.commandVars, AssertionError).value;
      assert key in ExpectedItem(item, path, ctx);
      assert Key(key, "command") in ExpectedItem(item, path, ctx);
      CommandValuesAsserted(st, path, item.name, text, item.icon);
    }
  }

  /** Any store that holds the reference map of a forest passes the checks
      for all of it. */
  lemma {:induction false} ExpectedMirrored(st: Store, items: seq<Item>, path: string, ctx: Ctx)
    requires CommandsBraceFree(items) && Resolvable(items, ctx) && WellNamed(items)
    requires SubMap(Expected(items, path, ctx), st)
    ensures Mirrored(st, items, path, ctx)
    decreases SizeSeq(items), 1
  {
    if |items| > 0 {
      SizeSeqSplits(items);
      assert [items[0]][1..] == [];
      assert WellNamed([items[0]]);
      var eh := ExpectedItem(items[0], path, ctx);
      var er := Expected(items[1..], path, ctx);
      ExpectedItemKeys(items[0], path, ctx);
      ExpectedKeys(items[1..], path, ctx);
      forall k | k in eh
        ensures k in st && st[k] == eh[k]
      {
        assert k !in er;
      }
      ExpectedItemMirrored(st, items[0], path, ctx);
      ExpectedMirrored(st, items[1..], path, ctx);
    }
  }

  /** The one-item forest a root menu is compiled as. */
  function Root(name: string, subItems: seq<Item>, activation: string, icon: Option<string>): seq<Item> {
    [Menu(name, subItems, Some(activation), icon)]
  }

  /** Walking a forest over a store with nothing under the forest's names
      adds exactly the reference map, leaves every existing key as it was
      and adds keys only below `path` under those names. */
  lemma FreshWalk(s: Store, items: seq<Item>, path: string, ctx: Ctx)
    requires CommandsBraceFree(items) && Resolvable(items, ctx) && WellNamed(items)
    requires Fresh(s, path, Names(items))
    ensures WalkItems(s, items, path, ctx) == Ok(s + Expected(items, path, ctx))
    ensures forall k :: k in s ==> k in WalkItems(s, items, path, ctx).value &&
                                   WalkItems(s, items, path, ctx).value[k] == s[k]
    ensures forall k :: k in WalkItems(s, items, path, ctx).value && k !in s ==>
                          Below(path, k) && ChildName(path, k) in Names(items)
  {
    ExpectedKeys(items, path, ctx);
    WalkExpected(s, items, path, ctx);
  }

  /** `RegistryMenu(name, sub_items, type, icon_path).compile()` on a
      registry where nothing is stored under the menu's name: it succeeds,
      adds exactly the reference map, leaves every existing key as it was
      and adds keys only below the menu key. */
  lemma CompileExpected(s: Store, name: string, subItems: seq<Item>, activation: string,
                        icon: Option<string>, exe: string)
    requires CommandsBraceFree(subItems)
    requires ContextRegistryFormat(activation).Ok?
    requires Resolvable(Root(name, subItems, activation, icon), RootCtx(activation, icon, exe))
    requires WellNamed(Root(name, subItems, activation, icon))
    requires Fresh(s, ContextRegistryFormat(activation).value, {name})
    ensures var path := ContextRegistryFormat(activation).value;
            var r := RegistryCompile(s, name, subItems, activation, icon, exe);
            && r == Ok(s + Expected(Root(name, subItems, activation, icon), path, RootCtx(activation, icon, exe)))
            && (forall k :: k in s ==> k in r.value && r.value[k] == s[k])
            && (forall k :: k in r.value && k !in s ==> Below(path, k) && ChildName(path, k) == name)
  {
    var root := Root(name, subItems, activation, icon);
    assert root[1..] == [];
    assert Names(root) == {name};
    FreshWalk(s, root, ContextRegistryFormat(activation).value, RootCtx(activation, icon, exe));
  }

  /** After a walk over a store with nothing under the forest's names,
      every menu and command of the forest passes the mock's checks. */
  lemma FreshWalkMirrored(s: Store, items: seq<Item>, path: string, ctx: Ctx)
    requires CommandsBraceFree(items) && Resolvable(items, ctx) && WellNamed(items)
    requires Fresh(s, path, Names(items))
    ensures WalkItems(s, items, path, ctx).Ok?
    ensures Mirrored(WalkItems(s, items, path, ctx).value, items, path, ctx)
  {
    FreshWalk(s, items, path, ctx);
    var e := Expected(items, path, ctx);
    assert SubMap(e, s + e);
    ExpectedMirrored(s + e, items, path, ctx);
  }

  /** After such a compile every menu and command of the tree passes the
      mock's checks. */
  lemma CompileMirrored(s: Store, name: string, subItems: seq<Item>, activation: string,
                        icon: Option<string>, exe: string)
    requires CommandsBraceFree(subItems)
    requires ContextRegistryFormat(activation).Ok?
    requires Resolvable(Root(name, subItems, activation, icon), RootCtx(activation, icon, exe))
    requires WellNamed(Root(name, subItems, activation, icon))
    requires Fresh(s, ContextRegistryFormat(activation).value, {name})
    ensures RegistryCompile(s, name, subItems, activation, icon, exe).Ok?
    ensures Mirrored(RegistryCompile(s, name, subItems, activation, icon, exe).value,
                     Root(name, subItems, activation, icon), ContextRegistryFormat(activation).value,
                     RootCtx(activation, icon, exe))
  {
    var root := Root(name, subItems, activation, icon);
    assert root[1..] == [];
    assert Names(root) == {name};
    FreshWalkMirrored(s, root, ContextRegistryFormat(activation).value, RootCtx(activation, icon, exe));
  }
}
