/** `delete_key` and `remove_windows_menu` of `context_menu/windows_menus.py`
    over the in-memory store, with the registry's own semantics: a key's
    subkeys are the stored keys below it, and deleting a key first deletes
    each of its subkeys, recursively. */
module WinDelete {
  import opened Wrappers
  import opened RegistryStore
  import opened WinCommands
  import opened WinKeys
  import Strs

  /** What `winreg.OpenKey` raises for a missing key. */
  const MissingKey: Error := OSError("FileNotFoundError")

  /** Every proper backslash-prefix of a stored key is stored as well, as in
      the registry, where a key cannot exist without its parent. */
  predicate PrefixClosed(s: Store) {
    forall k, i :: k in s && 0 <= i < |k| && k[i] == '\\' ==> k[..i] in s
  }

  /** The keys below `p` whose subkey of `p` is one of `names`. */
  function Under(s: Store, p: string, names: set<string>): set<string> {
    set k | k in s && Below(p, k) && ChildName(p, k) in names
  }

  lemma SubsetNoLarger<T>(a: set<T>, b: set<T>)
    requires a <= b
    ensures |a| <= |b|
    decreases |a|
  {
    if a != {} {
      var y :| y in a;
      SubsetNoLarger(a - {y}, b - {y});
    }
  }

  lemma SubsetSmaller<T>(a: set<T>, b: set<T>)
    requires a < b
    ensures |a| < |b|
  {
    var x :| x in b && x !in a;
    SubsetNoLarger(a, b - {x});
  }

  /** The keys at or below a subkey `p\c` are the keys below `p` under `c`. */
  lemma SubtreeOfChild(s: Store, p: string, c: string)
    requires '\\' !in c
    ensures Subtree(s, Key(p, c)) == Under(s, p, {c})
  {
    forall k | k in s && (k == Key(p, c) || Below(Key(p, c), k))
      ensures Below(p, k) && ChildName(p, k) == c
    {
      if k == Key(p, c) {
        ChildOfJoin(p, c);
      } else {
        BelowJoin(p, c, k);
      }
    }
    forall k | k in s && Below(p, k) && ChildName(p, k) == c
      ensures k == Key(p, c) || Below(Key(p, c), k)
    {
      BelowChild(p, c, k);
    }
  }

  /** Removing a whole subtree from a prefix-closed store leaves it
      prefix-closed. */
  lemma RemoveSubtreeClosed(s: Store, q: string)
    requires PrefixClosed(s)
    ensures PrefixClosed(s - Subtree(s, q))
  {
    var t := s - Subtree(s, q);
    forall k, i | k in t && 0 <= i < |k| && k[i] == '\\'
      ensures k[..i] in t
    {
      assert k[..i] in s;
    }
  }

  /** A subkey the listing reports is itself stored when the store is
      prefix-closed. */
  lemma ListedChildStored(s: Store, p: string, c: string)
    requires PrefixClosed(s)
    requires c in SubkeyNames(s, p)
    ensures Key(p, c) in s
  {
    var k :| k in s && Below(p, k) && ChildName(p, k) == c;
    BelowChild(p, c, k);
    if k != Key(p, c) {
      var n := |Key(p, c)|;
      assert k[n] == '\\' && k[..n] == Key(p, c);
    }
  }

  /** The subtree of a listed subkey, in a store the deletion has only
      shrunk, is strictly smaller than the subtree being deleted. */
  lemma ChildSubtreeSmaller(s: Store, cur: Store, p: string, c: string)
    requires p in s && cur.Keys <= s.Keys && '\\' !in c
    ensures |Subtree(cur, Key(p, c))| < |Subtree(s, p)|
  {
    SubtreeOfChild(cur, p, c);
    assert Subtree(cur, Key(p, c)) < Subtree(s, p) by {
      assert p in Subtree(s, p) && p !in Subtree(cur, Key(p, c));
    }
    SubsetSmaller(Subtree(cur, Key(p, c)), Subtree(s, p));
  }

  /** Deleting the subtree of one more listed subkey. */
  lemma DeleteStep(s: Store, p: string, done: set<string>, c: string, cur: Store)
    requires cur == s - Under(s, p, done) && '\\' !in c
    ensures cur - Subtree(cur, Key(p, c)) == s - Under(s, p, done + {c})
  {
    SubtreeOfChild(cur, p, c);
    var lhs := cur - Subtree(cur, Key(p, c));
    var rhs := s - Under(s, p, done + {c});
    assert lhs.Keys == rhs.Keys;
  }

  /** Once every listed subkey is gone, removing the key itself removes the
      whole subtree. */
  lemma DeleteLast(s: Store, p: string, cur: Store)
    requires p in s && cur == s - Under(s, p, SubkeyNames(s, p))
    ensures cur - {p} == s - Subtree(s, p)
  {
    assert Under(s, p, SubkeyNames(s, p)) + {p} == Subtree(s, p);
    var lhs := cur - {p};
    var rhs := s - Subtree(s, p);
    assert lhs.Keys == rhs.Keys;
  }

  /** `delete_key(path)`: each listed subkey is deleted recursively, then
      the key itself. A missing key raises; once it succeeds, exactly the key
      and everything below it are gone, and on a prefix-closed store it
      succeeds exactly when the key exists. */
  method DeleteTree(s: Store, p: string) returns (r: Result<Store>)
    ensures p !in s ==> r == Err(MissingKey)
    ensures r.Ok? ==> r.value == s - Subtree(s, p)
    ensures PrefixClosed(s) && p in s ==> r.Ok? && PrefixClosed(r.value)
    decreases |Subtree(s, p)|
  {
    if p !in s {
      return Err(MissingKey);
    }
    var names := SubkeyNames(s, p);
    ghost var all := names;
    var cur := s;
    ghost var done: set<string> := {};
    while names != {}
      invariant names <= all && done == all - names
      invariant cur == s - Under(s, p, done)
      invariant PrefixClosed(s) ==> PrefixClosed(cur)
      decreases |names|
    {
      var c :| c in names;
      var child := Key(p, c);
      ChildSubtreeSmaller(s, cur, p, c);
      if PrefixClosed(s) {
        ListedChildStored(s, p, c);
        ChildOfJoin(p, c);
      }
      var sub := DeleteTree(cur, child);
      if sub.Err? {
        return sub;
      }
      DeleteStep(s, p, done, c, cur);
      cur := sub.value;
      names := names - {c};
      done := done + {c};
    }
    DeleteLast(s, p, cur);
    if PrefixClosed(s) {
      RemoveSubtreeClosed(s, p);
    }
    return Ok(cur - {p});
  }

  /** `remove_windows_menu(name, type)`: deletes the menu's key under the
      type's path; an unknown type raises `KeyError` first. */
  method RemoveWindowsMenu(s: Store, name: string, activation: string) returns (r: Result<Store>)
    ensures ContextRegistryFormat(activation).Err? ==> r == Err(KeyError(Strs.Upper(activation)))
    ensures ContextRegistryFormat(activation).Ok? ==>
              var key := Key(ContextRegistryFormat(activation).value, name);
              && (key !in s ==> r == Err(MissingKey))
              && (r.Ok? ==> r.value == s - Subtree(s, key))
              && (PrefixClosed(s) && key in s ==> r.Ok?)
  {
    var path := ContextRegistryFormat(activation);
    if path.Err? {
      return Err(path.error);
    }
    r := DeleteTree(s, Key(path.value, name));
  }
}
