# Caprine application menu: a Dafny model

This project models `updateMenu` in `source/menu.ts`. That function builds the native application menu of Caprine, a desktop wrapper around the Messenger web client. Electron itself is abstracted away, and two pieces of logic are left:

- **The settings state machine driven by clicks.** The configuration store has three string-valued keys (`vibrancy`, `theme`, `sidebar`) and a family of boolean keys. Every clickable item is a transition. It yields:
  - a new configuration;
  - the effects it emits: actions dispatched to the web view, the confirmation dialog, a relaunch, a rebuild, calls into collaborators;
  - the item's checked state when the handler returns.
  
  The transitions come in several kinds:
  - radio-style groups;
  - the odd "hidden" sidebar toggle;
  - plain boolean inverts;
  - handlers that copy Electron's flipped checked state;
  - the two confirmation-gated toggles (always on top, hide names and avatars).
- **The derived view.** This covers:
  - which checkbox is checked and which item is visible or enabled, as functions of the configuration and the host (platform, development build, the OS's open-at-login setting);
  - the template's layout: the macOS or Windows/Linux template, the About entry appended to Help off macOS, and the debug submenu appended in development builds.

  A rebuild renders that layout against the configuration.

Modules:

- `Settings` (settings.dfy): the configuration record, `config.get`/`config.set`, and the radio groups with their stored strings.
- `MenuItems` (items.dfy): the items, named by what they do; labels and accelerators are dropped.
- `Clicks` (clicks.dfy): the click handlers as the transition function `Click`, the gate `Gated`, and sequences of clicks (`Run`).
- `View` (view.dfy): `CheckedOf`, `VisibleOf`, `EnabledOf`, and radio exclusivity.
- `Template` (template.dfy): the layout, `Render`/`Erase`, the template choice, and the debug/help appends.
- `Runtime` (runtime.dfy):
  - the imperative side: a `ConfigStore` class updated key by key, and a `MenuItem` class whose `checked` flag a gated handler overwrites;
  - `HandleClick`, proved equal to `Click`;
  - `UpdateMenu`, which performs the two appends and is proved equal to `Menu`.

The stored radio values are kept as strings, as the JavaScript `===` comparisons see them. So a group has exactly one checked entry when the stored string is one of its values, and none otherwise. Every click keeps a well-formed store well-formed.

Three details of the code that the model keeps as written:

- **Always-on-top dispatches nothing.** Its handler (`source/menu.ts` 347-372) only calls `setAlwaysOnTop` on the window (365, 371), which is left out. Only the private-mode toggle dispatches, with `set-private-mode` (520-528).
- **Only `response === 1` unchecks the item** (366-367). The model keeps the code's three-way split on the answer: 0, 1, anything else.
- **A group has a checked entry only when the stored string is one of its values** (81, 114, 147). A stored string outside the group leaves every entry of that group unchecked.

## Model

| member | source | states |
|---|---|---|
| Settings.Set | source/menu.ts:256 | `config.set` of a boolean key stores the new value and leaves every other key, boolean or string, as it was |
| Settings.Choose | source/menu.ts:83 | `config.set` of a string key stores the string and leaves every other key as it was |
| Settings.Options | source/menu.ts:77-186 | a group's menu entries are exactly the choices that belong to that group, each listed once, in the order the submenu shows them; the rendered radio submenus are built from this list |
| Settings.ChoiceNamed | source/menu.ts:77-186 | reading a stored string as a group entry gives an entry of that group whose value is that string |
| Settings.ChoiceNamedValue | source/menu.ts:77-186 | writing an entry's value and reading it back gives the same entry |
| Settings.ValueInjective | source/menu.ts:77-186 | no two radio entries store the same string, so at most one `===` test can hold |
| Settings.SetRestores | source/menu.ts:256 | writing a key and then writing its old value back restores the whole store |
| Clicks.RadioClick | source/menu.ts:77-186 | a vibrancy, theme or default/narrow/wide sidebar click stores the item's value whatever was stored before. It dispatches `update-vibrancy`, `set-theme` or `update-sidebar` and triggers a rebuild. It changes no other key, and clicking the item again changes nothing |
| Clicks.HiddenSidebarClick | source/menu.ts:159-164 | the hidden item stores `default` when `hidden` was stored, and `hidden` otherwise. It dispatches `update-sidebar` and changes nothing else |
| Clicks.HiddenSidebarTwice | source/menu.ts:159-164 | two clicks on the hidden item end at `hidden` when starting from `hidden`, and at `default` from anything else (narrow, say). Nothing else changes |
| Clicks.SwitchClick | source/menu.ts:48-68 | "Switch to Work Chat" stores `useWorkChat` true and "Switch to Messenger" stores it false. Both relaunch and change no other key |
| Clicks.ToggleClick | source/menu.ts:293-300 | a plain toggle inverts its own key and no other |
| Clicks.ToggleTwice | source/menu.ts:293-300 | two clicks on a plain toggle restore the original store exactly |
| Clicks.ToggleDispatches | source/menu.ts:262-311 | a plain toggle dispatches an action exactly for video autoplay, the unread badge and the message buttons (540-546). The message buttons dispatch `toggle-message-buttons` and autoplay dispatches `toggle-video-autoplay` |
| Clicks.MirrorClick | source/menu.ts:188-211 | a handler that copies `menuItem.checked` stores that state and no other key. When the item showed the stored value before Electron flipped it, this is the same as inverting the key |
| Clicks.GateProtocol | source/menu.ts:347-372 | the dialog is shown exactly when the feature is off, the prompt flag is on and Shift is held. Without the dialog, the feature is inverted at once and the item's state is kept. With it, the prompt flag becomes the negation of "don't ask again", the feature ends on exactly when response is 0, and the item ends unchecked when response is 1. The feature flips exactly when there was no dialog or response 0 was chosen. Only the feature and the prompt flag change |
| Clicks.GateAsked | source/menu.ts:361-368 | the dialog branch: prompt flag, feature, item state and effects for responses 0, 1 and any other |
| Clicks.AlwaysOnTopGate | source/menu.ts:341-374 | the always-on-top item follows the gate and sends no action in any branch: its only effect is the dialog, when shown. Response 0 turns it on, any other response leaves it off, and response 1 unchecks the item. When always-on-top is already on, it is turned off with no dialog. Only `alwaysOnTop` and its prompt flag change |
| Clicks.PrivateModeGate | source/menu.ts:498-531 | the private-mode item follows the gate. After the dialog, response 0 turns `privateMode` on and dispatches `set-private-mode`; any other response leaves it off and dispatches nothing, and response 1 unchecks the item. `set-private-mode` is dispatched exactly when `privateMode` flips. Only `privateMode` and its prompt flag change |
| Clicks.ClickWriters | source/menu.ts:48-752 | only the switch, radio, checkbox-bound and gated items write the modelled store; items that dispatch an action, open something or relaunch leave it unchanged. The one exception is "delete settings" (738-742), which clears the store: it is exactly the item that emits the `clearConfig` token |
| Clicks.ClickKeepsWellFormed | source/menu.ts:77-186 | no click moves a string key outside its group's values |
| Clicks.RunKeepsWellFormed | source/menu.ts:77-186 | after any sequence of clicks, a well-formed store is still well-formed |
| View.RadioExclusive | source/menu.ts:77-186 | in each group, the checked entries are exactly the entry whose value is stored. That is one entry when the stored string belongs to the group and none otherwise, never two |
| View.ExactlyOneCheckedAfterClicks | source/menu.ts:77-186 | starting from a well-formed store, after any sequence of clicks each group has exactly one checked choice; `Template.ExactlyOneCheckedEntryAfterClicks` states the same on the rendered submenu |
| Template.RenderedRadioExclusive | source/menu.ts:77-186 | in the rendered vibrancy, theme and sidebar submenus, entry i is the checkbox of the group's i-th choice, and the checked positions are exactly the position of the stored value: one position when the stored string belongs to the group, none otherwise |
| Template.ExactlyOneCheckedEntryAfterClicks | source/menu.ts:77-186 | starting from a well-formed store, after any sequence of clicks each rendered radio submenu has exactly one checked entry |
| View.ClickedEntryIsTheCheckedOne | source/menu.ts:110-141 | after a click on a radio entry (other than the hidden toggle), it is the only checked entry of its group |
| View.SwitchVisibility | source/menu.ts:48-68 | exactly one of the two switch items is visible, decided by `useWorkChat`. After a click on one, it is hidden and the other is shown |
| View.ToggleShowsInverted | source/menu.ts:293-300 | after a toggle and a rebuild, its checkbox shows the inverted value |
| View.EnabledRule | source/menu.ts:425-434 | only the tray-icon item can be disabled. It is disabled exactly on macOS or while launching minimized |
| View.PlatformVisibility | source/menu.ts:238-671 | Vibrancy and dock bounce show only on macOS. Launch minimized shows only off macOS, and launch at login only off Linux. Privacy shows only in development builds, and the spell-checker languages only off macOS with spell checking on |
| Template.EraseRender | source/menu.ts:755-870 | rendering only decorates: erasing the decoration gives back the layout |
| Template.RenderDecorated | source/menu.ts:77-671 | every entry of a rendered subtree, at every depth, carries the derived checked, visible and enabled state and its item's kind |
| Template.MenuIsDecoratedSkeleton | source/menu.ts:755-879 | a rebuild is the template's layout decorated from the configuration. Its shape does not depend on the configuration, and every entry carries the derived state |
| Template.TemplateChoice | source/menu.ts:755-872 | the template with the app menu first and a window-role menu is chosen exactly on macOS. Elsewhere the File menu comes first and ends with the quit role |
| Template.DebugAppended | source/menu.ts:872-879 | the debug submenu is appended as the last top-level entry exactly in development builds |
| Template.HelpEndsWithAbout | source/menu.ts:674-719 | the help menu is the last entry of the base template and ends with the About item exactly off macOS |
| Template.MenuTemplateChoice | source/menu.ts:807-879 | on the rendered menu, a window-role menu exists exactly on macOS, and the last entry is the debug submenu exactly in development builds |
| Runtime.ConfigStore.Get | source/menu.ts:254 | `config.get` returns the stored boolean |
| Runtime.ConfigStore.Set | source/menu.ts:256 | `config.set` replaces the store by the updated record |
| Runtime.ConfigStore.GetString | source/menu.ts:161 | `config.get` returns the stored string |
| Runtime.ConfigStore.SetString | source/menu.ts:149 | `config.set` of a string key replaces the store by the updated record |
| Runtime.GatedClick | source/menu.ts:347-372 | the gated handler, run step by step on the store and the item, leaves them as `Gated` says and returns its effects |
| Runtime.ResolveDialog | source/menu.ts:361-368 | the dialog branch, run step by step, leaves the store and the item as `Gated` says |
| Runtime.HandleClick | source/menu.ts:48-752 | every click handler, run step by step on the store and the item, leaves them as `Click` says and returns its effects |
| Runtime.UpdateMenu | source/menu.ts:707-884 | the rebuild does three things. It appends the separator and About to Help off macOS, picks the platform's template, and appends the debug submenu in development builds. The result equals `Menu`, has the template's layout as its shape, and is decorated at every entry |

## Left out

- Electron's side is left out: `Menu.buildFromTemplate`, `Menu.setApplicationMenu` (881-882), `setAlwaysOnTop` (365, 371), `setAutoHideMenuBar`/`setMenuBarVisibility` and the info dialog (393-404). These are calls into a library that is not part of this model.
- `dialog.showMessageBox` (349, 506) is not modelled as a call. The user's answer (`response`, `checkboxChecked`) is an input of the click, and `AskConfirmation` records that the dialog was shown.
- Electron flips a checkbox's `checked` before calling its handler; that is an input of the click (`Event.itemChecked`). The handlers that store `menuItem.checked` (192-211, 278-280, 393-394, 421-423) are modelled with it.
- `app.relaunch`/`app.quit` are the `Relaunch` effect. `showRestartDialog` is the `RestartDialog` effect. An `await updateMenu()` inside a handler is the `Rebuild` effect, and a rebuild is re-rendering with `Menu`. A rebuild is a function of the configuration and the host, so two rebuilds of the same configuration are equal by construction; no lemma states it.
- Calls into code outside the menu are `Delegate` effects with no modelled semantics. They are:
  - the custom-styles file work (219-233);
  - the login-item settings (380-386);
  - `toggleTrayIcon`, `toggleLaunchMinimized(menu)` and `toggleMenuBarMode`;
  - `openUrlMenuItem`, `aboutMenuItem`, `openNewGitHubIssue`/`debugInfo`;
  - `config.openInEditor`, `shell.openPath` and `shell.trashItem`.
- Clicks.ClickWriters: the store that "delete settings" clears (740) is not modelled as changed. The clear is the `clearConfig` token, and the lemma proves that only this item emits it.
- Clicks.Click: "delete settings" (740) emits a `clearConfig` token and leaves the modelled store unchanged. The store's defaults live in `config.ts`, which is not part of this model.
- The checked state of "launch at login" comes from the OS (380). It is the input `Env.openAtLogin`.
- The entries that `generateEmojiSubmenu` (248) and `getSpellCheckerLanguages` (577) produce are opaque `Generated` placeholders.
- The entries electron-util's `appMenu` adds around the given items (756) are not represented: the app-menu entry holds only the items `menu.ts` passes to it. electron-util is not part of this model.
- Labels and accelerators are opaque strings and are dropped. Items are named by `ItemId`.
- Clicks.Run: it ranges over every `ItemId`, including ids no template entry carries, such as `Toggle(AlwaysOnTop)` (an invert that skips the gate) or `Dispatch` of an arbitrary action. The invariants proved over `Run` hold on that larger set, so they hold for the menu's own items too.
- Concurrency of re-entrant async rebuilds is not modelled. Each click is one atomic transition.
