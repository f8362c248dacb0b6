/**
  The derived view: which checkbox is checked and which item is visible or
  enabled, as functions of the configuration and of the host.
 */
module View {
  import opened Settings
  import opened MenuItems
  import opened Clicks

  datatype Platform = MacOS | Windows | Linux

  /**
    What the menu reads besides the configuration: the platform, whether this
    is a development build, and the OS's "open at login" setting.
   */
  datatype Env = Env(platform: Platform, development: bool, openAtLogin: bool)

  function CheckedOf(c: Config, env: Env, id: ItemId): bool {
    match id
    case Radio(ch) => Stored(c, GroupOf(ch)) == Value(ch)
    case Toggle(k) => Get(c, k)
    case Mirror(k) => Get(c, k)
    case MuteNotifications => Get(c, NotificationsMuted)
    case AlwaysOnTopItem => Get(c, AlwaysOnTop)
    case PrivateModeItem => Get(c, PrivateMode)
    case LaunchAtLogin => env.openAtLogin
    case ShowTrayIconItem => Get(c, ShowTrayIcon)
    case LaunchMinimizedItem => Get(c, LaunchMinimized)
    case _ => false
  }

  function VisibleOf(c: Config, env: Env, id: ItemId): bool {
    var mac := env.platform == MacOS;
    match id
    case SwitchTo(w) => Get(c, UseWorkChat) != w
    case PrivacyMenu => env.development
    case Toggle(BounceDockOnMessage) => mac
    case Toggle(AutoplayVideos) => env.development
    case Mirror(NotificationMessagePreview) => env.development
    case MuteNotifications => env.development
    case Toggle(ShowUnreadBadge) => env.development
    case Toggle(MenuBarMode) => mac
    case LaunchAtLogin => env.platform != Linux
    case Mirror(AutoHideMenuBar) => !mac
    case Mirror(FlashWindowOnMessage) => env.development
    case LaunchMinimizedItem => !mac
    case VibrancyMenu => mac
    case SpellCheckerMenu => !mac && Get(c, IsSpellCheckerEnabled)
    case _ => true
  }

  function EnabledOf(c: Config, env: Env, id: ItemId): bool {
    match id
    case ShowTrayIconItem => env.platform != MacOS && !Get(c, LaunchMinimized)
    case _ => true
  }

  /** The entries of group `g` whose checkbox is checked. */
  function CheckedChoices(c: Config, env: Env, g: Group): set<Choice> {
    set ch | ch in Options(g) && CheckedOf(c, env, Radio(ch))
  }

  /**
    In each radio group the checked entries are exactly the one whose value is
    stored: one entry when the stored string belongs to the group, none
    otherwise, never two.
   */
  lemma {:induction false} RadioExclusive(c: Config, env: Env, g: Group)
    ensures var named := ChoiceNamed(g, Stored(c, g));
      && CheckedChoices(c, env, g) == (if named.Some? then {named.value} else {})
      && |CheckedChoices(c, env, g)| == (if named.Some? then 1 else 0)
  {
    var named := ChoiceNamed(g, Stored(c, g));
    var checked := CheckedChoices(c, env, g);
    if named.Some? {
      forall ch | ch in checked ensures ch == named.value {
        ValueInjective(ch, named.value);
      }
      assert named.value in checked;
      assert checked == {named.value};
    } else {
      forall ch | ch in checked ensures false {
        ChoiceNamedValue(ch);
      }
      assert checked == {};
    }
  }

  /** After any sequence of clicks from a well-formed store, each group has exactly one checked entry. */
  lemma {:induction false} ExactlyOneCheckedAfterClicks(c: Config, env: Env, ps: seq<Press>, g: Group)
    requires WellFormed(c)
    ensures |CheckedChoices(Run(c, ps), env, g)| == 1
  {
    RunKeepsWellFormed(c, ps);
    RadioExclusive(Run(c, ps), env, g);
  }

  /** Once a radio entry (other than the "hidden" toggle) is clicked, it is its group's only checked entry. */
  lemma {:induction false} ClickedEntryIsTheCheckedOne(c: Config, env: Env, ch: Choice, ev: Event)
    requires ch != SidebarHidden
    ensures CheckedChoices(Click(c, Radio(ch), ev).config, env, GroupOf(ch)) == {ch}
  {
    var r := Click(c, Radio(ch), ev).config;
    RadioClick(c, ch, ev, ev);
    ChoiceNamedValue(ch);
    RadioExclusive(r, env, GroupOf(ch));
  }

  /** Exactly one of the two switch items is visible, and a click on one hides it and shows the other. */
  lemma SwitchVisibility(c: Config, env: Env, w: bool, ev: Event)
    ensures VisibleOf(c, env, SwitchTo(true)) != VisibleOf(c, env, SwitchTo(false))
    ensures VisibleOf(c, env, SwitchTo(true)) == !Get(c, UseWorkChat)
    ensures var r := Click(c, SwitchTo(w), ev).config;
      !VisibleOf(r, env, SwitchTo(w)) && VisibleOf(r, env, SwitchTo(!w))
  {
  }

  /** A toggle's checkbox, re-derived after the click, shows the inverted value. */
  lemma ToggleShowsInverted(c: Config, env: Env, k: BoolKey, ev: Event)
    ensures CheckedOf(Click(c, Toggle(k), ev).config, env, Toggle(k)) == !CheckedOf(c, env, Toggle(k))
  {
  }

  /** The tray-icon item is the only item that can be disabled: on macOS, or while launching minimized. */
  lemma EnabledRule(c: Config, env: Env, id: ItemId)
    ensures !EnabledOf(c, env, id) <==>
      id == ShowTrayIconItem && (env.platform == MacOS || Get(c, LaunchMinimized))
  {
  }

  /** Items tied to one platform or to development builds. */
  lemma PlatformVisibility(c: Config, env: Env)
    ensures VisibleOf(c, env, VibrancyMenu) <==> env.platform == MacOS
    ensures VisibleOf(c, env, Toggle(BounceDockOnMessage)) <==> env.platform == MacOS
    ensures VisibleOf(c, env, LaunchMinimizedItem) <==> env.platform != MacOS
    ensures VisibleOf(c, env, LaunchAtLogin) <==> env.platform != Linux
    ensures VisibleOf(c, env, PrivacyMenu) <==> env.development
    ensures VisibleOf(c, env, SpellCheckerMenu) <==> env.platform != MacOS && Get(c, IsSpellCheckerEnabled)
  {
  }
}
