/** The two registry writers of `RegistryMenu` in
    `context_menu/windows_menus.py`, over the in-memory store: `create_menu`
    and `create_command`, and the key writes of `FastRegistryCommand.compile`. */
module WinKeys {
  import opened Wrappers
  import opened RegistryStore

  /** The values `create_menu` adds to a menu key. */
  function MenuAttrs(name: string, icon: Option<string>): Values {
    var attrs := map["MUIVerb" := name, "subcommands" := ""];
    if icon.Some? then attrs["Icon" := icon.value] else attrs
  }

  /** The values `create_command` adds to a command key. */
  function CommandAttrs(name: string, icon: Option<string>): Values {
    if icon.Some? then map["" := name, "Icon" := icon.value] else map["" := name]
  }

  /** `join_keys(path, name)`, spelt out as `JoinKeysParts` shows. */
  function Key(path: string, name: string): string {
    path + "\\" + name
  }

  /** Writing the attributes one by one is overlaying them. */
  lemma MenuAttrsOverlay(v: Values, name: string, icon: Option<string>)
    ensures v["MUIVerb" := name]["subcommands" := ""] == v + map["MUIVerb" := name, "subcommands" := ""]
    ensures v["MUIVerb" := name]["subcommands" := ""]["Icon" := icon.GetOr("")] ==
            v + map["MUIVerb" := name, "subcommands" := ""]["Icon" := icon.GetOr("")]
  {
  }

  lemma CommandAttrsOverlay(v: Values, name: string, icon: Option<string>)
    ensures v["" := name] == v + map["" := name]
    ensures v["" := name]["Icon" := icon.GetOr("")] == v + map["" := name, "Icon" := icon.GetOr("")]
  {
  }

  /** The first half of `create_menu`: the key gets the menu attributes on
      top of whatever it held; no other key changes. */
  function SetMenuValues(s: Store, keyPath: string, name: string, icon: Option<string>): (r: Store)
    ensures r == s[keyPath := ValuesOf(s, keyPath) + MenuAttrs(name, icon)]
  {
    var s1 := CreateKey(s, keyPath);
    var s2 := SetKeyValue(s1, keyPath, "MUIVerb", name);
    var s3 := SetKeyValue(s2, keyPath, "subcommands", "");
    assert s3 == s[keyPath := ValuesOf(s, keyPath)["MUIVerb" := name]["subcommands" := ""]];
    MenuAttrsOverlay(ValuesOf(s, keyPath), name, icon);
    if icon.Some? then SetKeyValue(s3, keyPath, "Icon", icon.value) else s3
  }

  /** `RegistryMenu.create_menu`: the menu key gets the menu attributes on
      top of whatever it held, its `shell` subkey is created, and the
      subkey's path is returned; no other key changes. */
  function CreateMenu(s: Store, name: string, path: string, icon: Option<string>): (r: (Store, string))
    ensures r.1 == Key(Key(path, name), "shell")
    ensures r.0 == s[Key(path, name) := ValuesOf(s, Key(path, name)) + MenuAttrs(name, icon)][r.1 := ValuesOf(s, r.1)]
  {
    var keyPath := Key(path, name);
    var s4 := SetMenuValues(s, keyPath, name, icon);
    var keyShellPath := Key(keyPath, "shell");
    assert keyShellPath != keyPath by { assert |keyShellPath| > |keyPath|; }
    (CreateKey(s4, keyShellPath), keyShellPath)
  }

  /** A created key whose default value is then set: only that key changes,
      and only its default value. */
  function SetDefault(s: Store, path: string, value: string): (r: Store)
    ensures r == s[path := ValuesOf(s, path)["" := value]]
  {
    var s1 := CreateKey(s, path);
    SetKeyValue(s1, path, "", value)
  }

  /** `RegistryMenu.create_command`: the command key gets its name as default
      value (and the icon), its `command` subkey gets the command line as
      default value; no other key changes. */
  function CreateCommand(s: Store, name: string, path: string, command: string, icon: Option<string>): (r: Store)
    ensures r == s[Key(path, name) := ValuesOf(s, Key(path, name)) + CommandAttrs(name, icon)]
                  [Key(Key(path, name), "command") := ValuesOf(s, Key(Key(path, name), "command"))["" := command]]
  {
    var keyPath := Key(path, name);
    var s2 := SetDefault(s, keyPath, name);
    var commandPath := Key(keyPath, "command");
    assert commandPath != keyPath by { assert |commandPath| > |keyPath|; }
    var s4 := SetDefault(s2, commandPath, command);
    var named := ValuesOf(s, keyPath)["" := name];
    var commandValues := ValuesOf(s, commandPath)["" := command];
    assert s4 == s[keyPath := named][commandPath := commandValues];
    CommandAttrsOverlay(ValuesOf(s, keyPath), name, icon);
    if icon.Some? then
      assert s4[keyPath] == named;
      SetKeyValue(s4, keyPath, "Icon", icon.value)
    else s4
  }

  /** The icon value a fast command adds to its key, if any. */
  function IconAttr(icon: Option<string>): Values {
    if icon.Some? then map["Icon" := icon.value] else map[]
  }

  lemma IconOverlay(v: Values, icon: Option<string>)
    ensures icon.Some? ==> v["Icon" := icon.value] == v + IconAttr(icon)
    ensures icon.None? ==> v == v + IconAttr(icon)
  {
  }

  /** The two keys a fast command creates, empty when they are new. */
  function CreateFastKeys(s: Store, keyPath: string): (r: Store)
    ensures r == s[keyPath := ValuesOf(s, keyPath)][Key(keyPath, "command") := ValuesOf(s, Key(keyPath, "command"))]
  {
    var s1 := CreateKey(s, keyPath);
    var commandPath := Key(keyPath, "command");
    assert commandPath != keyPath by { assert |commandPath| > |keyPath|; }
    CreateKey(s1, commandPath)
  }

  /** The values a fast command writes into the keys `CreateFastKeys` made
      from `s`. */
  function SetFastValues(s2: Store, s: Store, keyPath: string, command: string, icon: Option<string>): (r: Store)
    requires s2 == s[keyPath := ValuesOf(s, keyPath)][Key(keyPath, "command") := ValuesOf(s, Key(keyPath, "command"))]
    ensures r == s[keyPath := ValuesOf(s, keyPath) + IconAttr(icon)]
                  [Key(keyPath, "command") := ValuesOf(s, Key(keyPath, "command"))["" := command]]
  {
    var commandPath := Key(keyPath, "command");
    assert commandPath != keyPath by { assert |commandPath| > |keyPath|; }
    var s3 := SetKeyValue(s2, commandPath, "", command);
    assert s3 == s[keyPath := ValuesOf(s, keyPath)][commandPath := ValuesOf(s, commandPath)["" := command]];
    IconOverlay(ValuesOf(s, keyPath), icon);
    if icon.Some? then SetKeyValue(s3, keyPath, "Icon", icon.value) else s3
  }
}
