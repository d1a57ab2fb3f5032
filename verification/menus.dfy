/** `context_menu/menus.py`: the platform-neutral entry points. `compile`
    rejects a root menu without a type and then hands the tree to the
    backend of the running platform; `platform.system()`, the registry, the
    interpreter path and the home directory are inputs here. */
module Menus {
  import opened Wrappers
  import opened MenuTree
  import Strs
  import RegistryStore
  import WinCommands
  import WinKeys
  import WinMenus
  import WinDelete
  import Nautilus

  /** What `platform.system()` reports, as far as the package cares. */
  datatype Platform = Linux | Windows | OtherPlatform

  /** The machine a menu is compiled on: its platform, its registry, the
      running interpreter (`sys.executable`) and the user's home directory. */
  datatype Host = Host(platform: Platform, registry: RegistryStore.Store, exe: string, home: string)

  /** What compiling leaves behind: a changed registry on Windows, an
      extension file on Linux, nothing anywhere else. */
  datatype Effect =
    | Registered(store: RegistryStore.Store)
    | Written(path: string, code: string)
    | Unchanged

  /** What the top-level `compile` raises for a menu without a type. */
  const NoType: Error := Exception("type can't be None for top-level ContextMenu")

  /** The Nautilus backend: the extension's text, and where it is written. */
  function NautilusCompile(home: string, name: string, items: seq<Item>, activation: string): (r: Effect)
    ensures r.Written? && r.path == Nautilus.ExtensionPath(home, name)
    ensures r.code == Nautilus.BuildScript(name, items, activation)
  {
    Written(Nautilus.ExtensionPath(home, name), Nautilus.BuildScript(name, items, activation))
  }

  /** `ContextMenu.compile()`: a menu without a type raises on every
      platform, before any backend runs. Otherwise Linux gets an extension
      file, Windows the registry keys of `RegistryMenu` (with the menu's
      icon), and any other platform nothing. */
  function CompileMenu(host: Host, menu: Item): (r: Result<Effect>)
    requires menu.Menu?
    requires host.platform == Windows ==> WinMenus.CommandsBraceFree(menu.subItems)
    ensures menu.menuType.None? ==> r == Err(NoType)
    ensures menu.menuType.Some? && host.platform == Linux ==>
              r == Ok(NautilusCompile(host.home, menu.name, menu.subItems, menu.menuType.value))
    ensures menu.menuType.Some? && host.platform == Windows ==>
              var w := WinMenus.RegistryCompile(host.registry, menu.name, menu.subItems, menu.menuType.value,
                                                menu.icon, host.exe);
              && (r.Ok? <==> w.Ok?)
              && (r.Ok? ==> r.value == Registered(w.value))
              && (r.Err? ==> r.error == w.error)
    ensures menu.menuType.Some? && host.platform == OtherPlatform ==> r == Ok(Unchanged)
  {
    match menu.menuType
    case None => Err(NoType)
    case Some(activation) =>
      match host.platform
      case Linux => Ok(NautilusCompile(host.home, menu.name, menu.subItems, activation))
      case Windows =>
        var s :- WinMenus.RegistryCompile(host.registry, menu.name, menu.subItems, activation, menu.icon, host.exe);
        Ok(Registered(s))
      case OtherPlatform => Ok(Unchanged)
  }

  /** The one-command menu the Linux backend builds for a fast command: a
      menu named after the command, holding a command of the same name with
      the same command, callable, parameters and variables, and no icon. */
  function FastAsMenu(fc: FastCommand): (r: Result<Item>)
    ensures r.Err? <==> fc.command.Some? && fc.python.Some?
    ensures r.Ok? ==> r.value.Menu? && r.value.name == fc.name && r.value.menuType == Some(fc.activation)
    ensures r.Ok? ==> r.value.subItems == [Command(fc.name, fc.command, fc.python, fc.params, fc.commandVars, None)]
  {
    var cmd :- NewContextCommand(fc.name, fc.command, fc.python, fc.params, fc.commandVars, None);
    Ok(Menu(fc.name, [cmd], Some(fc.activation), None))
  }

  /** `FastCommand.compile()`: on Linux the fast command becomes a one-item
      menu of the same name; on Windows it is `FastRegistryCommand`, a
      single key directly under the type's path. */
  function CompileFast(host: Host, fc: FastCommand): (r: Result<Effect>)
    requires host.platform == Windows && fc.command.Some? && fc.commandVars.Some? ==>
               WinCommands.BraceFree(fc.command.value)
    ensures host.platform == Linux && !(fc.command.Some? && fc.python.Some?) ==>
              r == Ok(NautilusCompile(host.home, fc.name,
                                      [Command(fc.name, fc.command, fc.python, fc.params, fc.commandVars, None)],
                                      fc.activation))
    ensures host.platform == Windows ==>
              var w := WinMenus.FastCompile(host.registry, fc, host.exe);
              && (r.Ok? <==> w.Ok?)
              && (r.Ok? ==> r.value == Registered(w.value))
              && (r.Err? ==> r.error == w.error)
    ensures host.platform == OtherPlatform ==> r == Ok(Unchanged)
  {
    match host.platform
    case Linux =>
      var menu :- FastAsMenu(fc);
      Ok(NautilusCompile(host.home, menu.name, menu.subItems, fc.activation))
    case Windows =>
      var s :- WinMenus.FastCompile(host.registry, fc, host.exe);
      Ok(Registered(s))
    case OtherPlatform => Ok(Unchanged)
  }

  /** On Linux a fast command compiles to exactly what the typed menu of
      one command of the same name compiles to. */
  lemma FastIsOneCommandMenu(host: Host, fc: FastCommand)
    requires host.platform == Linux
    requires !(fc.command.Some? && fc.python.Some?)
    ensures var menu := Menu(fc.name, [Command(fc.name, fc.command, fc.python, fc.params, fc.commandVars, None)],
                             Some(fc.activation), None);
            CompileFast(host, fc) == CompileMenu(host, menu)
  {
  }

  /** The Linux half of `removeMenu`: the backend has no removal function,
      so the call raises. */
  const NoLinuxRemoval: Error := AttributeError("module 'context_menu.linux_menus' has no attribute 'remove_linux_menu'")

  /** `removeMenu(name, type)`: on Windows the menu's key and everything
      below it are deleted; on Linux the call raises; elsewhere nothing
      happens. */
  method RemoveMenu(host: Host, name: string, activation: string) returns (r: Result<Effect>)
    ensures host.platform == Linux ==> r == Err(NoLinuxRemoval)
    ensures host.platform == OtherPlatform ==> r == Ok(Unchanged)
    ensures host.platform == Windows && WinCommands.ContextRegistryFormat(activation).Ok? ==>
              var key := WinKeys.Key(WinCommands.ContextRegistryFormat(activation).value, name);
              && (key !in host.registry ==> r == Err(WinDelete.MissingKey))
              && (r.Ok? ==> r.value == Registered(host.registry - RegistryStore.Subtree(host.registry, key)))
              && (WinDelete.PrefixClosed(host.registry) && key in host.registry ==> r.Ok?)
    ensures host.platform == Windows && WinCommands.ContextRegistryFormat(activation).Err? ==>
              r == Err(KeyError(Strs.Upper(activation)))
  {
    match host.platform
    case Linux => r := Err(NoLinuxRemoval);
    case OtherPlatform => r := Ok(Unchanged);
    case Windows =>
      var w := WinDelete.RemoveWindowsMenu(host.registry, name, activation);
      r := if w.Ok? then Ok(Registered(w.value)) else Err(w.error);
  }
}
