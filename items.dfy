/**
  The items of the application menu, named by what they do instead of by their
  (translated, opaque) labels. Submenu titles are items too, because their
  visibility is derived like an item's.
 */
module MenuItems {
  import opened Settings

  datatype ItemId =
    /** A plain item whose click only dispatches `action` to the web view. */
    | Dispatch(action: string)
    /** "Switch to Work Chat" (`workChat` true) and "Switch to Messenger". */
    | SwitchTo(workChat: bool)
    /** An entry of the vibrancy, theme or sidebar group. */
    | Radio(choice: Choice)
    /** A checkbox whose click inverts the stored boolean `key`. */
    | Toggle(key: BoolKey)
    /** A checkbox whose click copies the item's new checked state into `key`. */
    | Mirror(key: BoolKey)
    /** "Mute notifications": checked from the store, click only dispatches. */
    | MuteNotifications
    /** The two confirmation-gated checkboxes. */
    | AlwaysOnTopItem
    | PrivateModeItem
    /** Checkboxes whose click is handled by code outside the menu. */
    | LaunchAtLogin
    | ShowTrayIconItem
    | LaunchMinimizedItem
    /** Plain items whose click is handled by the shell, the app or a helper library. */
    | CustomStyles
    | RestartApp
    | Website
    | SourceCode
    | Donate
    | ReportIssue
    | About
    | ShowSettings
    | ShowAppData
    | DeleteSettings
    | DeleteAppData
    /** Submenu titles. */
    | PrivacyMenu
    | EmojiMenu
    | AdvancedMenu
    | PreferencesMenu
    | ThemeMenu
    | VibrancyMenu
    | SidebarMenu
    | ConversationMenu
    | SpellCheckerMenu
    | DebugMenu

  /** Electron's item type: a checkbox shows a check mark, a normal item does not. */
  datatype Kind = Normal | Checkbox

  function KindOf(id: ItemId): Kind {
    match id
    case Radio(_) | Toggle(_) | Mirror(_) | MuteNotifications
       | AlwaysOnTopItem | PrivateModeItem
       | LaunchAtLogin | ShowTrayIconItem | LaunchMinimizedItem => Checkbox
    case _ => Normal
  }
}
