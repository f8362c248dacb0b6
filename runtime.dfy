/**
  The imperative side of `updateMenu`: the shared configuration store that
  click handlers update key by key, the menu item object whose checked flag a
  handler may overwrite, and the rebuild that assembles the template with
  the two appends.
 */
module Runtime {
  import opened Settings
  import opened MenuItems
  import opened Clicks
  import opened View
  import opened Template

  /** The shared configuration store (`config`). */
  class ConfigStore {
    var values: Config

    constructor (initial: Config)
      ensures values == initial
    {
      values := initial;
    }

    /** `config.get(k)` for a boolean key. */
    method Get(k: BoolKey) returns (v: bool)
      ensures v == (k in values.on)
    {
      v := k in values.on;
    }

    /** `config.set(k, v)` for a boolean key. */
    method Set(k: BoolKey, v: bool)
      modifies this
      ensures values == Settings.Set(old(values), k, v)
    {
      values := Settings.Set(values, k, v);
    }

    /** `config.get` for a string key. */
    method GetString(g: Group) returns (s: string)
      ensures s == Stored(values, g)
    {
      s := match g
        case VibrancyGroup => values.vibrancy
        case ThemeGroup => values.theme
        case SidebarGroup => values.sidebar;
    }

    /** `config.set` for a string key. */
    method SetString(g: Group, s: string)
      modifies this
      ensures values == Choose(old(values), g, s)
    {
      values := Choose(values, g, s);
    }
  }

  /** The Electron menu item a click handler receives. */
  class MenuItem {
    var checked: bool

    constructor (checked: bool)
      ensures this.checked == checked
    {
      this.checked := checked;
    }
  }

  /** A confirmation-gated handler, step by step. */
  method GatedClick(store: ConfigStore, item: MenuItem, feature: BoolKey, prompt: BoolKey,
                    notify: seq<Effect>, shift: bool, answer: Answer) returns (effects: seq<Effect>)
    modifies store, item
    ensures var o := Gated(old(store.values), feature, prompt, notify, Event(shift, old(item.checked), answer));
      store.values == o.config && effects == o.effects && item.checked == o.itemChecked
  {
    var on := store.Get(feature);
    var ask := store.Get(prompt);
    if !on && ask && shift {
      effects := ResolveDialog(store, item, feature, prompt, notify, answer);
    } else {
      store.Set(feature, !on);
      effects := notify;
    }
  }

  /** The dialog branch of a gated handler: record "don't ask again", then act on the button. */
  method ResolveDialog(store: ConfigStore, item: MenuItem, feature: BoolKey, prompt: BoolKey,
                       notify: seq<Effect>, answer: Answer) returns (effects: seq<Effect>)
    requires !Settings.Get(store.values, feature) && Settings.Get(store.values, prompt)
    modifies store, item
    ensures var o := Gated(old(store.values), feature, prompt, notify, Event(true, old(item.checked), answer));
      store.values == o.config && effects == o.effects && item.checked == o.itemChecked
  {
    store.Set(prompt, !answer.checkboxChecked);
    if answer.response == 0 {
      var now := store.Get(feature);
      store.Set(feature, !now);
      effects := [AskConfirmation] + notify;
    } else if answer.response == 1 {
      item.checked := false;
      effects := [AskConfirmation];
    } else {
      effects := [AskConfirmation];
    }
  }

  /** The click handler of item `id`, updating the store and the item in place. */
  method HandleClick(store: ConfigStore, item: MenuItem, id: ItemId, shift: bool, answer: Answer)
    returns (effects: seq<Effect>)
    modifies store, item
    ensures var o := Click(old(store.values), id, Event(shift, old(item.checked), answer));
      store.values == o.config && effects == o.effects && item.checked == o.itemChecked
  {
    match id {
      case Dispatch(a) =>
        effects := [Send(a)];
      case SwitchTo(w) =>
        store.Set(UseWorkChat, w);
        effects := [Relaunch];
      case Radio(ch) =>
        if ch == SidebarHidden {
          var current := store.GetString(SidebarGroup);
          store.SetString(SidebarGroup, if current == "hidden" then "default" else "hidden");
          effects := [Send("update-sidebar"), Rebuild];
        } else {
          store.SetString(GroupOf(ch), Value(ch));
          effects := [Send(GroupAction(GroupOf(ch))), Rebuild];
        }
      case Toggle(k) =>
        var v := store.Get(k);
        store.Set(k, !v);
        effects := ToggleEffects(k);
      case Mirror(k) =>
        store.Set(k, item.checked);
        effects := [];
      case MuteNotifications =>
        effects := [Send("toggle-mute-notifications")];
      case AlwaysOnTopItem =>
        effects := GatedClick(store, item, AlwaysOnTop, ShowAlwaysOnTopPrompt, [], shift, answer);
      case PrivateModeItem =>
        effects := GatedClick(store, item, PrivateMode, ShowPrivateModePrompt, [Send("set-private-mode")], shift, answer);
      case LaunchAtLogin =>
        effects := [Delegate("setLoginItemSettings")];
      case ShowTrayIconItem =>
        effects := [Delegate("toggleTrayIcon")];
      case LaunchMinimizedItem =>
        effects := [Delegate("toggleLaunchMinimized")];
      case CustomStyles =>
        effects := [Delegate("openCustomStyles")];
      case RestartApp =>
        effects := [Relaunch];
      case Website =>
        effects := [Delegate("openUrl")];
      case SourceCode =>
        effects := [Delegate("openUrl")];
      case Donate =>
        effects := [Delegate("openUrl")];
      case ReportIssue =>
        effects := [Delegate("openNewGitHubIssue")];
      case About =>
        effects := [Delegate("showAboutWindow")];
      case ShowSettings =>
        effects := [Delegate("openInEditor")];
      case ShowAppData =>
        effects := [Delegate("openPath")];
      case DeleteSettings =>
        effects := [Delegate("clearConfig"), Relaunch];
      case DeleteAppData =>
        effects := [Delegate("trashItem"), Relaunch];
      case _ =>
        effects := [];
    }
  }

  /**
    A rebuild: the help submenu gets the About entry appended off macOS, the
    platform's template is chosen, the debug submenu is appended in
    development builds, and every entry is rendered from the store.
   */
  method UpdateMenu(store: ConfigStore, env: Env) returns (menu: seq<Node>)
    ensures menu == Menu(store.values, env)
    ensures EraseAll(menu) == Skeleton(env)
    ensures forall i :: 0 <= i < |menu| ==> Decorated(store.values, env, menu[i])
  {
    var help := HelpBase();
    if env.platform != MacOS {
      help := help + [Sep, Leaf(About)];
    }
    var template := if env.platform == MacOS then MacTemplate(help) else OtherTemplate(help);
    if env.development {
      template := template + [Sub(DebugMenu, DebugLayout())];
    }
    menu := RenderAll(store.values, env, template);
    MenuIsDecoratedSkeleton(store.values, env);
  }
}
