/**
  What a click on each menu item does: the new configuration, the effects it
  emits (actions dispatched to the web view, the confirmation dialog, calls
  into collaborators) and the item's checked state when the handler returns.
 */
module Clicks {
  import opened Settings
  import opened MenuItems

  /** What the confirmation dialog resolved to: the button index and the "don't ask again" box. */
  datatype Answer = Answer(response: int, checkboxChecked: bool)

  /**
    The inputs of one click: whether Shift was held, the item's checked state
    as Electron hands it to the handler (already flipped for a checkbox), and
    the dialog's answer, consulted only when the dialog is shown.
   */
  datatype Event = Event(shift: bool, itemChecked: bool, answer: Answer)

  datatype Effect =
    | Send(action: string)      // sendAction(action)
    | AskConfirmation           // the modal dialog was shown
    | RestartDialog             // showRestartDialog(...)
    | Relaunch                  // app.relaunch(); app.quit()
    | Rebuild                   // await updateMenu()
    | Delegate(call: string)    // a call into code outside the menu

  datatype Outcome = Outcome(config: Config, effects: seq<Effect>, itemChecked: bool)

  /** The action a radio group's click dispatches. */
  function GroupAction(g: Group): string {
    match g
    case VibrancyGroup => "update-vibrancy"
    case ThemeGroup => "set-theme"
    case SidebarGroup => "update-sidebar"
  }

  /** The effects that follow inverting a plain boolean key. */
  function ToggleEffects(k: BoolKey): seq<Effect> {
    match k
    case AutoplayVideos => [Send("toggle-video-autoplay")]
    case ShowUnreadBadge => [Send("reload")]
    case IsSpellCheckerEnabled | HardwareAcceleration => [RestartDialog]
    case MenuBarMode => [Delegate("toggleMenuBarMode")]
    case ShowMessageButtons => [Send("toggle-message-buttons")]
    case _ => []
  }

  /**
    A confirmation-gated toggle of `feature`: the dialog is shown only when
    the feature is off, `prompt` is on and Shift is held.
   */
  function Gated(c: Config, feature: BoolKey, prompt: BoolKey, notify: seq<Effect>, ev: Event): Outcome {
    if !Get(c, feature) && Get(c, prompt) && ev.shift then
      var c1 := Set(c, prompt, !ev.answer.checkboxChecked);
      if ev.answer.response == 0 then
        Outcome(Set(c1, feature, !Get(c1, feature)), [AskConfirmation] + notify, ev.itemChecked)
      else if ev.answer.response == 1 then
        Outcome(c1, [AskConfirmation], false)
      else
        Outcome(c1, [AskConfirmation], ev.itemChecked)
    else
      Outcome(Set(c, feature, !Get(c, feature)), notify, ev.itemChecked)
  }

  /** The click handler of every item. */
  function Click(c: Config, id: ItemId, ev: Event): Outcome {
    match id
    case Dispatch(a) => Outcome(c, [Send(a)], ev.itemChecked)
    case SwitchTo(w) => Outcome(Set(c, UseWorkChat, w), [Relaunch], ev.itemChecked)
    case Radio(ch) =>
      if ch == SidebarHidden then
        var next := if c.sidebar == "hidden" then "default" else "hidden";
        Outcome(Choose(c, SidebarGroup, next), [Send("update-sidebar"), Rebuild], ev.itemChecked)
      else
        Outcome(Choose(c, GroupOf(ch), Value(ch)), [Send(GroupAction(GroupOf(ch))), Rebuild], ev.itemChecked)
    case Toggle(k) => Outcome(Set(c, k, !Get(c, k)), ToggleEffects(k), ev.itemChecked)
    case Mirror(k) => Outcome(Set(c, k, ev.itemChecked), [], ev.itemChecked)
    case MuteNotifications => Outcome(c, [Send("toggle-mute-notifications")], ev.itemChecked)
    case AlwaysOnTopItem => Gated(c, AlwaysOnTop, ShowAlwaysOnTopPrompt, [], ev)
    case PrivateModeItem => Gated(c, PrivateMode, ShowPrivateModePrompt, [Send("set-private-mode")], ev)
    case LaunchAtLogin => Outcome(c, [Delegate("setLoginItemSettings")], ev.itemChecked)
    case ShowTrayIconItem => Outcome(c, [Delegate("toggleTrayIcon")], ev.itemChecked)
    case LaunchMinimizedItem => Outcome(c, [Delegate("toggleLaunchMinimized")], ev.itemChecked)
    case CustomStyles => Outcome(c, [Delegate("openCustomStyles")], ev.itemChecked)
    case RestartApp => Outcome(c, [Relaunch], ev.itemChecked)
    case Website | SourceCode | Donate => Outcome(c, [Delegate("openUrl")], ev.itemChecked)
    case ReportIssue => Outcome(c, [Delegate("openNewGitHubIssue")], ev.itemChecked)
    case About => Outcome(c, [Delegate("showAboutWindow")], ev.itemChecked)
    case ShowSettings => Outcome(c, [Delegate("openInEditor")], ev.itemChecked)
    case ShowAppData => Outcome(c, [Delegate("openPath")], ev.itemChecked)
    case DeleteSettings => Outcome(c, [Delegate("clearConfig"), Relaunch], ev.itemChecked)
    case DeleteAppData => Outcome(c, [Delegate("trashItem"), Relaunch], ev.itemChecked)
    case PrivacyMenu | EmojiMenu | AdvancedMenu | PreferencesMenu | ThemeMenu
       | VibrancyMenu | SidebarMenu | ConversationMenu | SpellCheckerMenu | DebugMenu =>
      Outcome(c, [], ev.itemChecked)
  }

  /** One click of a sequence. */
  datatype Press = Press(id: ItemId, ev: Event)

  /** The configuration after a sequence of clicks. */
  function Run(c: Config, ps: seq<Press>): Config
    decreases |ps|
  {
    if ps == [] then c else Run(Click(c, ps[0].id, ps[0].ev).config, ps[1..])
  }

  /** Two configurations that agree on every key except `k`. */
  predicate OthersAgree(a: Config, b: Config, k: BoolKey) {
    && a.vibrancy == b.vibrancy && a.theme == b.theme && a.sidebar == b.sidebar
    && forall k' :: k' != k ==> Get(a, k') == Get(b, k')
  }

  // ----- radio groups -----

  /**
    A vibrancy, theme or default/narrow/wide sidebar click stores the item's
    value whatever was stored before, dispatches the group's action, asks for
    a rebuild and changes no other key; clicking it again changes nothing.
   */
  lemma RadioClick(c: Config, ch: Choice, ev: Event, ev': Event)
    requires ch != SidebarHidden
    ensures var o := Click(c, Radio(ch), ev);
      && Stored(o.config, GroupOf(ch)) == Value(ch)
      && (forall h :: h != GroupOf(ch) ==> Stored(o.config, h) == Stored(c, h))
      && o.config.on == c.on
      && o.effects == [Send(GroupAction(GroupOf(ch))), Rebuild]
      && (forall s :: Click(Choose(c, GroupOf(ch), s), Radio(ch), ev').config == o.config)
      && Click(o.config, Radio(ch), ev').config == o.config
  {
  }

  /** The "hidden" sidebar item toggles between hidden and default. */
  lemma HiddenSidebarClick(c: Config, ev: Event)
    ensures var o := Click(c, Radio(SidebarHidden), ev);
      && o.config.sidebar == (if c.sidebar == "hidden" then "default" else "hidden")
      && o.config.vibrancy == c.vibrancy && o.config.theme == c.theme && o.config.on == c.on
      && o.effects == [Send("update-sidebar"), Rebuild]
  {
  }

  /**
    Two clicks on the "hidden" sidebar item return to hidden only from hidden;
    from any other value (narrow, say) they end at default.
   */
  lemma {:induction false} HiddenSidebarTwice(c: Config, ev: Event, ev': Event)
    ensures var twice := Click(Click(c, Radio(SidebarHidden), ev).config, Radio(SidebarHidden), ev').config;
      && twice.sidebar == (if c.sidebar == "hidden" then "hidden" else "default")
      && twice == c.(sidebar := twice.sidebar)
  {
    HiddenSidebarClick(c, ev);
    var once := Click(c, Radio(SidebarHidden), ev).config;
    HiddenSidebarClick(once, ev');
    assert "hidden" != "default";
  }

  // ----- switch items -----

  /** Each switch item stores its own `useWorkChat` value and relaunches. */
  lemma SwitchClick(c: Config, w: bool, ev: Event)
    ensures var o := Click(c, SwitchTo(w), ev);
      && Get(o.config, UseWorkChat) == w
      && OthersAgree(o.config, c, UseWorkChat)
      && o.effects == [Relaunch]
  {
  }

  // ----- plain boolean toggles -----

  /** A plain toggle inverts its own key and no other. */
  lemma ToggleClick(c: Config, k: BoolKey, ev: Event)
    ensures var o := Click(c, Toggle(k), ev);
      && Get(o.config, k) == !Get(c, k)
      && OthersAgree(o.config, c, k)
  {
  }

  /** Toggling twice restores the original configuration exactly. */
  lemma {:induction false} ToggleTwice(c: Config, k: BoolKey, ev: Event, ev': Event)
    ensures Click(Click(c, Toggle(k), ev).config, Toggle(k), ev').config == c
  {
    SetRestores(c, k, !Get(c, k));
  }

  /**
    A toggle dispatches an action to the web view exactly for the flags tied
    to a feature of the page: video autoplay, the unread badge and the message
    buttons.
   */
  lemma ToggleDispatches(c: Config, k: BoolKey, ev: Event)
    ensures (exists a :: Send(a) in Click(c, Toggle(k), ev).effects)
        <==> k in {AutoplayVideos, ShowUnreadBadge, ShowMessageButtons}
    ensures k == ShowMessageButtons ==> Click(c, Toggle(k), ev).effects == [Send("toggle-message-buttons")]
    ensures k == AutoplayVideos ==> Click(c, Toggle(k), ev).effects == [Send("toggle-video-autoplay")]
  {
    var effects := Click(c, Toggle(k), ev).effects;
    if k == AutoplayVideos {
      assert Send("toggle-video-autoplay") in effects;
    } else if k == ShowUnreadBadge {
      assert Send("reload") in effects;
    } else if k == ShowMessageButtons {
      assert Send("toggle-message-buttons") in effects;
    }
  }

  /**
    A handler that copies the item's new checked state stores that state; when
    the item showed the stored value before Electron flipped it, this is the
    same as inverting the key.
   */
  lemma MirrorClick(c: Config, k: BoolKey, ev: Event)
    ensures var o := Click(c, Mirror(k), ev);
      && Get(o.config, k) == ev.itemChecked
      && OthersAgree(o.config, c, k)
      && (ev.itemChecked == !Get(c, k) ==> o.config == Click(c, Toggle(k), ev).config)
  {
  }

  // ----- confirmation-gated toggles -----

  /**
    The gate: without the dialog the feature is inverted at once; with it the
    prompt flag becomes the negation of "don't ask again", response 0 inverts
    the feature, response 1 leaves it and unchecks the item. Only the feature
    and the prompt flag can change.
   */
  lemma GateProtocol(c: Config, feature: BoolKey, prompt: BoolKey, notify: seq<Effect>, ev: Event)
    requires feature != prompt
    requires AskConfirmation !in notify
    ensures var o := Gated(c, feature, prompt, notify, ev);
      var asked := !Get(c, feature) && Get(c, prompt) && ev.shift;
      && (AskConfirmation in o.effects <==> asked)
      && (!asked ==> && Get(o.config, feature) == !Get(c, feature)
                     && OthersAgree(o.config, c, feature)
                     && o.effects == notify
                     && o.itemChecked == ev.itemChecked)
      && (asked ==> && Get(o.config, prompt) == !ev.answer.checkboxChecked
                    && (Get(o.config, feature) <==> ev.answer.response == 0)
                    && o.itemChecked == (ev.itemChecked && ev.answer.response != 1)
                    && o.effects == if ev.answer.response == 0 then [AskConfirmation] + notify else [AskConfirmation])
      && (Get(o.config, feature) != Get(c, feature) <==> !asked || ev.answer.response == 0)
      && o.config.vibrancy == c.vibrancy && o.config.theme == c.theme && o.config.sidebar == c.sidebar
      && (forall k :: k != feature && k != prompt ==> Get(o.config, k) == Get(c, k))
  {
    if !Get(c, feature) && Get(c, prompt) && ev.shift {
      GateAsked(c, feature, prompt, notify, ev);
    } else {
      var o := Gated(c, feature, prompt, notify, ev);
      assert o == Outcome(Set(c, feature, !Get(c, feature)), notify, ev.itemChecked);
    }
  }

  /** The dialog branch of the gate, on its own. */
  lemma GateAsked(c: Config, feature: BoolKey, prompt: BoolKey, notify: seq<Effect>, ev: Event)
    requires feature != prompt
    requires AskConfirmation !in notify
    requires !Get(c, feature) && Get(c, prompt) && ev.shift
    ensures var o := Gated(c, feature, prompt, notify, ev);
      && AskConfirmation in o.effects
      && Get(o.config, prompt) == !ev.answer.checkboxChecked
      && (Get(o.config, feature) <==> ev.answer.response == 0)
      && o.itemChecked == (ev.itemChecked && ev.answer.response != 1)
      && o.effects == (if ev.answer.response == 0 then [AskConfirmation] + notify else [AskConfirmation])
      && o.config.vibrancy == c.vibrancy && o.config.theme == c.theme && o.config.sidebar == c.sidebar
      && (forall k :: k != feature && k != prompt ==> Get(o.config, k) == Get(c, k))
  {
    var o := Gated(c, feature, prompt, notify, ev);
    var c1 := Set(c, prompt, !ev.answer.checkboxChecked);
    assert Get(c1, feature) == Get(c, feature);
    if ev.answer.response == 0 {
      assert o == Outcome(Set(c1, feature, true), [AskConfirmation] + notify, ev.itemChecked);
      assert ([AskConfirmation] + notify)[0] == AskConfirmation;
    } else if ev.answer.response == 1 {
      assert o == Outcome(c1, [AskConfirmation], false);
    } else {
      assert o == Outcome(c1, [AskConfirmation], ev.itemChecked);
    }
  }

  /** Always-on-top follows the gate; it dispatches nothing to the web view. */
  lemma AlwaysOnTopGate(c: Config, ev: Event)
    ensures var o := Click(c, AlwaysOnTopItem, ev);
      var asked := !Get(c, AlwaysOnTop) && Get(c, ShowAlwaysOnTopPrompt) && ev.shift;
      && (AskConfirmation in o.effects <==> asked)
      && (!asked ==> o.config == Set(c, AlwaysOnTop, !Get(c, AlwaysOnTop)) && o.effects == [])
      && (asked ==> Get(o.config, ShowAlwaysOnTopPrompt) == !ev.answer.checkboxChecked)
      && (asked && ev.answer.response == 0 ==> Get(o.config, AlwaysOnTop))
      && (asked && ev.answer.response == 1 ==> !Get(o.config, AlwaysOnTop) && !o.itemChecked)
      && (asked && ev.answer.response != 0 ==> !Get(o.config, AlwaysOnTop))
      && (asked ==> o.effects == [AskConfirmation])
      && (Get(c, AlwaysOnTop) ==> !Get(o.config, AlwaysOnTop) && o.effects == [])
      && (forall a :: Send(a) !in o.effects)
      && o.config.vibrancy == c.vibrancy && o.config.theme == c.theme && o.config.sidebar == c.sidebar
      && (forall k :: k != AlwaysOnTop && k != ShowAlwaysOnTopPrompt ==> Get(o.config, k) == Get(c, k))
  {
    GateProtocol(c, AlwaysOnTop, ShowAlwaysOnTopPrompt, [], ev);
  }

  /** Private mode follows the gate and dispatches `set-private-mode` exactly when it flips. */
  lemma PrivateModeGate(c: Config, ev: Event)
    ensures var o := Click(c, PrivateModeItem, ev);
      var asked := !Get(c, PrivateMode) && Get(c, ShowPrivateModePrompt) && ev.shift;
      && (AskConfirmation in o.effects <==> asked)
      && (!asked ==> o.config == Set(c, PrivateMode, !Get(c, PrivateMode)))
      && (asked ==> Get(o.config, ShowPrivateModePrompt) == !ev.answer.checkboxChecked)
      && (asked && ev.answer.response == 0 ==>
            Get(o.config, PrivateMode) && o.effects == [AskConfirmation, Send("set-private-mode")])
      && (asked && ev.answer.response == 1 ==> !Get(o.config, PrivateMode) && !o.itemChecked)
      && (asked && ev.answer.response != 0 ==> !Get(o.config, PrivateMode) && o.effects == [AskConfirmation])
      && (Send("set-private-mode") in o.effects <==> Get(o.config, PrivateMode) != Get(c, PrivateMode))
      && o.config.vibrancy == c.vibrancy && o.config.theme == c.theme && o.config.sidebar == c.sidebar
      && (forall k :: k != PrivateMode && k != ShowPrivateModePrompt ==> Get(o.config, k) == Get(c, k))
  {
    GateProtocol(c, PrivateMode, ShowPrivateModePrompt, [Send("set-private-mode")], ev);
  }

  // ----- the store as a whole -----

  /**
    Only the switch, radio, checkbox-bound and gated items write the modelled
    store. "Delete settings" is the one other item that touches it: it is the
    only click that hands the store to `config.clear()`.
   */
  lemma ClickWriters(c: Config, id: ItemId, ev: Event)
    ensures Click(c, id, ev).config != c ==>
      id.SwitchTo? || id.Radio? || id.Toggle? || id.Mirror? || id == AlwaysOnTopItem || id == PrivateModeItem
    ensures Delegate("clearConfig") in Click(c, id, ev).effects <==> id == DeleteSettings
  {
  }

  /** No click moves a string key outside its group's values. */
  lemma ClickKeepsWellFormed(c: Config, id: ItemId, ev: Event)
    requires WellFormed(c)
    ensures WellFormed(Click(c, id, ev).config)
  {
    var r := Click(c, id, ev).config;
    forall g ensures ChoiceNamed(g, Stored(r, g)).Some? {
      assert ChoiceNamed(g, Stored(c, g)).Some?;
      if id.Radio? && g == GroupOf(id.choice) {
        if id.choice == SidebarHidden {
          ChoiceNamedValue(SidebarDefault);
          ChoiceNamedValue(SidebarHidden);
        } else {
          ChoiceNamedValue(id.choice);
        }
      } else if id == AlwaysOnTopItem {
        GateProtocol(c, AlwaysOnTop, ShowAlwaysOnTopPrompt, [], ev);
      } else if id == PrivateModeItem {
        GateProtocol(c, PrivateMode, ShowPrivateModePrompt, [Send("set-private-mode")], ev);
      }
    }
  }

  /** After any sequence of clicks every string key still holds one of its group's values. */
  lemma {:induction false} RunKeepsWellFormed(c: Config, ps: seq<Press>)
    requires WellFormed(c)
    ensures WellFormed(Run(c, ps))
    decreases |ps|
  {
    if ps != [] {
      ClickKeepsWellFormed(c, ps[0].id, ps[0].ev);
      RunKeepsWellFormed(Click(c, ps[0].id, ps[0].ev).config, ps[1..]);
    }
  }
}
