/** The in-memory registry of `context_menu/pytest_plugin.py` (`MockedWinReg`),
    which the repository's tests use in place of the Windows registry: a map
    from a backslash-joined key path to that key's named string values. The
    mock's `HKEY_CURRENT_USER\` prefix on every path is dropped; it is the same
    for every key. This module also holds the `assert_*` checks of the mock
    as predicates, and the path arithmetic that relates a key to its subkeys. */
module RegistryStore {
  import opened Wrappers
  import Strs

  /** The named values of one key; the default value has the empty name. */
  type Values = map<string, string>

  type Store = map<string, Values>

  /** What a key holds right after it is created: an empty default value. */
  const NewKeyValues: Values := map["" := ""]

  /** The values `setdefault` finds or creates for `path`. */
  function ValuesOf(s: Store, path: string): Values {
    if path in s then s[path] else NewKeyValues
  }

  /** `create_key`: adds the key with an empty default value, and never
      touches a key that already exists. */
  function CreateKey(s: Store, path: string): (r: Store)
    ensures r.Keys == s.Keys + {path}
    ensures forall k :: k in s ==> r[k] == s[k]
    ensures path !in s ==> r[path] == NewKeyValues
  {
    if path in s then s else s[path := NewKeyValues]
  }

  /** `set_key_value`: creates the key when it is absent and changes the one
      named value, nothing else. */
  function SetKeyValue(s: Store, path: string, name: string, value: string): Store {
    s[path := ValuesOf(s, path)[name := value]]
  }

  /** `get_key_value`: None for a missing key or a missing value name. */
  function GetKeyValue(s: Store, path: string, name: string): (r: Option<string>)
    ensures r.None? <==> path !in s || name !in s[path]
    ensures r.Some? ==> r.value == s[path][name]
  {
    if path in s && name in s[path] then Some(s[path][name]) else None
  }

  /** `list_keys`: the names of the values stored on the key (not its
      subkeys); empty for an absent key. */
  function ListKeys(s: Store, path: string): (r: set<string>)
    ensures forall n :: n in r <==> GetKeyValue(s, path, n).Some?
  {
    if path in s then s[path].Keys else {}
  }

  /** `delete_key` of the mock: removes exactly this key, and nothing when it
      is absent; keys below it stay. */
  function DeleteKey(s: Store, path: string): (r: Store)
    ensures r.Keys == s.Keys - {path}
    ensures forall k :: k in r ==> r[k] == s[k]
  {
    s - {path}
  }

  /** Creating a key twice is creating it once. */
  lemma CreateKeyIdempotent(s: Store, path: string)
    ensures CreateKey(CreateKey(s, path), path) == CreateKey(s, path)
  {
  }

  /** Reading after a create: a fresh key reads as an empty default and
      nothing else; every other read, and every read of a key that existed,
      is unchanged. */
  lemma GetAfterCreate(s: Store, path: string, path': string, name': string)
    ensures GetKeyValue(CreateKey(s, path), path', name') ==
            if path' == path && path !in s then (if name' == "" then Some("") else None)
            else GetKeyValue(s, path', name')
  {
  }

  /** A write adds at most the written key, and no other key's values
      change. */
  lemma SetKeyValueFrame(s: Store, path: string, name: string, value: string)
    ensures SetKeyValue(s, path, name, value).Keys == s.Keys + {path}
    ensures forall k :: k in s && k != path ==> SetKeyValue(s, path, name, value)[k] == s[k]
  {
  }

  /** Reading after a write: the written value is read back, a fresh key
      also has its empty default, and every other read is unchanged. */
  lemma GetAfterSet(s: Store, path: string, name: string, value: string, path': string, name': string)
    ensures GetKeyValue(SetKeyValue(s, path, name, value), path', name') ==
            if path' == path && name' == name then Some(value)
            else if path' == path && path !in s && name' == "" then Some("")
            else GetKeyValue(s, path', name')
  {
  }

  /** Two writes of the same value name: the last writer wins. */
  lemma SetKeyValueLastWins(s: Store, path: string, name: string, v1: string, v2: string)
    ensures SetKeyValue(SetKeyValue(s, path, name, v1), path, name, v2) == SetKeyValue(s, path, name, v2)
  {
    var a := SetKeyValue(SetKeyValue(s, path, name, v1), path, name, v2);
    var b := SetKeyValue(s, path, name, v2);
    assert a[path] == b[path];
  }

  /** After the mock's delete nothing is read from the key, and every other
      key reads as before. */
  lemma GetAfterDelete(s: Store, path: string, path': string, name: string)
    ensures GetKeyValue(DeleteKey(s, path), path', name) ==
            if path' == path then None else GetKeyValue(s, path', name)
  {
  }

  // ---------------------------------------------------------------------
  // Checks of `MockedWinReg.assert_*`, read through `get_key_value`.

  /** `assert_context_menu`: the menu key has an empty default, `MUIVerb` set
      to the name and an empty `subcommands`; its `shell` subkey exists with
      an empty default. */
  predicate ContextMenuAsserted(s: Store, parent: string, name: string) {
    && GetKeyValue(s, parent + "\\" + name, "") == Some("")
    && GetKeyValue(s, parent + "\\" + name, "MUIVerb") == Some(name)
    && GetKeyValue(s, parent + "\\" + name, "subcommands") == Some("")
    && GetKeyValue(s, parent + "\\" + name + "\\" + "shell", "") == Some("")
  }

  /** `assert_context_menu_with_icon` */
  predicate ContextMenuWithIconAsserted(s: Store, parent: string, name: string, icon: string) {
    ContextMenuAsserted(s, parent, name) && GetKeyValue(s, parent + "\\" + name, "Icon") == Some(icon)
  }

  /** `assert_context_command`: the command key's default is its name and its
      `command` subkey's default is the command line. */
  predicate ContextCommandAsserted(s: Store, parent: string, name: string, command: string) {
    && GetKeyValue(s, parent + "\\" + name, "") == Some(name)
    && GetKeyValue(s, parent + "\\" + name + "\\" + "command", "") == Some(command)
  }

  /** `assert_context_command_with_icon` */
  predicate ContextCommandWithIconAsserted(s: Store, parent: string, name: string, command: string, icon: string) {
    ContextCommandAsserted(s, parent, name, command) && GetKeyValue(s, parent + "\\" + name, "Icon") == Some(icon)
  }

  /** `assert_fast_command`: like a command, except that the key's default
      stays empty. */
  predicate FastCommandAsserted(s: Store, parent: string, name: string, command: string) {
    && GetKeyValue(s, parent + "\\" + name, "") == Some("")
    && GetKeyValue(s, parent + "\\" + name + "\\" + "command", "") == Some(command)
  }

  /** `assert_fast_command_with_icon` */
  predicate FastCommandWithIconAsserted(s: Store, parent: string, name: string, command: string, icon: string) {
    FastCommandAsserted(s, parent, name, command) && GetKeyValue(s, parent + "\\" + name, "Icon") == Some(icon)
  }

  // ---------------------------------------------------------------------
  // Key paths: a key's subkeys are the stored paths that extend it.

  /** `k` lies strictly below `p` in the key hierarchy. */
  predicate Below(p: string, k: string) {
    p + "\\" <= k
  }

  /** A key below a key below `p` lies below `p`. */
  lemma BelowTrans(p: string, q: string, k: string)
    requires Below(p, q) && Below(q, k)
    ensures Below(p, k)
  {
    assert q <= q + "\\";
  }

  /** The name of the subkey of `p` on the way to `k`. */
  function ChildName(p: string, k: string): (c: string)
    requires Below(p, k)
    ensures '\\' !in c
  {
    Strs.Split(k[|p| + 1..], '\\')[0]
  }

  /** The subkey names of `p` that the store holds keys at or below. */
  function SubkeyNames(s: Store, p: string): set<string> {
    set k | k in s && Below(p, k) :: ChildName(p, k)
  }

  /** The key `p` and every key below it. */
  function Subtree(s: Store, p: string): set<string> {
    set k | k in s && (k == p || Below(p, k))
  }

  /** A key lies at or below the subkey `p\c` of `p` exactly when the subkey
      of `p` on its way is `c`. */
  lemma {:induction false} BelowChild(p: string, c: string, k: string)
    requires '\\' !in c
    requires Below(p, k)
    ensures (k == p + "\\" + c || Below(p + "\\" + c, k)) <==> ChildName(p, k) == c
  {
    var rest := k[|p| + 1..];
    assert k == p + "\\" + rest;
    var parts := Strs.Split(rest, '\\');
    if ChildName(p, k) == c {
      Strs.JoinSplit(rest, '\\');
      if |parts| == 1 {
        assert rest == c;
      } else {
        assert rest == c + "\\" + Strs.Join("\\", parts[1..]);
        assert k == (p + "\\" + c + "\\") + Strs.Join("\\", parts[1..]);
      }
    }
    if k == p + "\\" + c {
      assert rest == c;
      Strs.SplitPrefix(c, "", '\\');
      assert c + "" == c;
    }
    if Below(p + "\\" + c, k) {
      var t := k[|p| + |c| + 2..];
      assert rest == c + ("\\" + t);
      Strs.SplitPrefix(c, "\\" + t, '\\');
      assert ("\\" + t)[1..] == t;
      assert Strs.Split("\\" + t, '\\')[0] == "";
      assert c + "" == c;
    }
  }

  /** The key `p\c` itself lies below `p`, with `c` as its subkey name. */
  lemma ChildOfJoin(p: string, c: string)
    requires '\\' !in c
    ensures Below(p, p + "\\" + c) && ChildName(p, p + "\\" + c) == c
  {
    BelowChild(p, c, p + "\\" + c);
  }

  /** A key below `p\c` lies below `p`, with `c` as its subkey name. */
  lemma BelowJoin(p: string, c: string, k: string)
    requires '\\' !in c
    requires Below(p + "\\" + c, k)
    ensures Below(p, k) && ChildName(p, k) == c
  {
    assert (p + "\\") <= (p + "\\" + c + "\\");
    BelowChild(p, c, k);
  }
}
