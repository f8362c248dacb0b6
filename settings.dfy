/**
  The persisted configuration store as the menu sees it: three keys that hold
  one of a few strings (vibrancy, theme, sidebar) and a family of boolean keys.
  The store itself lives outside the menu; here it is a plain record value.
 */
module Settings {

  datatype Option<+T> = None | Some(value: T)

  /** The boolean configuration keys the menu reads or writes. */
  datatype BoolKey =
    | UseWorkChat
    | AlwaysOnTop
    | ShowAlwaysOnTopPrompt
    | PrivateMode
    | ShowPrivateModePrompt
    | BounceDockOnMessage
    | AutoplayVideos
    | NotificationMessagePreview
    | NotificationsMuted
    | CallRingtoneMuted
    | ShowUnreadBadge
    | IsSpellCheckerEnabled
    | HardwareAcceleration
    | MenuBarMode
    | AutoHideMenuBar
    | AutoUpdate
    | FlashWindowOnMessage
    | ShowTrayIcon
    | LaunchMinimized
    | QuitOnWindowClose
    | ShowMessageButtons
    | BlockChatSeen
    | BlockTypingIndicator
    | BlockDeliveryReceipt

  /** The three radio-style groups of the menu, one per string-valued key. */
  datatype Group = VibrancyGroup | ThemeGroup | SidebarGroup

  /** One entry of a radio-style group: the value its item writes. */
  datatype Choice =
    | VibrancyNone | VibrancySidebar | VibrancyFull
    | ThemeSystem | ThemeLight | ThemeDark
    | SidebarDefault | SidebarHidden | SidebarNarrow | SidebarWide

  function GroupOf(ch: Choice): Group {
    match ch
    case VibrancyNone | VibrancySidebar | VibrancyFull => VibrancyGroup
    case ThemeSystem | ThemeLight | ThemeDark => ThemeGroup
    case SidebarDefault | SidebarHidden | SidebarNarrow | SidebarWide => SidebarGroup
  }

  /** The string the configuration stores for a choice. */
  function Value(ch: Choice): string {
    match ch
    case VibrancyNone => "none"
    case VibrancySidebar => "sidebar"
    case VibrancyFull => "full"
    case ThemeSystem => "system"
    case ThemeLight => "light"
    case ThemeDark => "dark"
    case SidebarDefault => "default"
    case SidebarHidden => "hidden"
    case SidebarNarrow => "narrow"
    case SidebarWide => "wide"
  }

  /** The entries of a group, in menu order, each listed once. */
  function Options(g: Group): (r: seq<Choice>)
    ensures forall ch :: ch in r <==> GroupOf(ch) == g
    ensures forall i, j :: 0 <= i < j < |r| ==> r[i] != r[j]
  {
    match g
    case VibrancyGroup => [VibrancyNone, VibrancySidebar, VibrancyFull]
    case ThemeGroup => [ThemeSystem, ThemeLight, ThemeDark]
    case SidebarGroup => [SidebarDefault, SidebarHidden, SidebarNarrow, SidebarWide]
  }

  /** Reads a stored string back as an entry of group `g`, if it is one. */
  function ChoiceNamed(g: Group, s: string): (r: Option<Choice>)
    ensures r.Some? ==> GroupOf(r.value) == g && Value(r.value) == s
  {
    match g
    case VibrancyGroup =>
      if s == "none" then Some(VibrancyNone)
      else if s == "sidebar" then Some(VibrancySidebar)
      else if s == "full" then Some(VibrancyFull)
      else None
    case ThemeGroup =>
      if s == "system" then Some(ThemeSystem)
      else if s == "light" then Some(ThemeLight)
      else if s == "dark" then Some(ThemeDark)
      else None
    case SidebarGroup =>
      if s == "default" then Some(SidebarDefault)
      else if s == "hidden" then Some(SidebarHidden)
      else if s == "narrow" then Some(SidebarNarrow)
      else if s == "wide" then Some(SidebarWide)
      else None
  }

  /** Writing a choice and reading it back gives the same choice. */
  lemma ChoiceNamedValue(ch: Choice)
    ensures ChoiceNamed(GroupOf(ch), Value(ch)) == Some(ch)
  {
  }

  /** No two entries store the same string. */
  lemma ValueInjective(a: Choice, b: Choice)
    ensures Value(a) == Value(b) ==> a == b
  {
    if Value(a) == Value(b) {
      ChoiceNamedValue(a);
      ChoiceNamedValue(b);
    }
  }

  /** The store: the three string keys and the set of boolean keys that are on. */
  datatype Config = Config(vibrancy: string, theme: string, sidebar: string, on: set<BoolKey>)

  /** `config.get(k)` for a boolean key. */
  function Get(c: Config, k: BoolKey): bool {
    k in c.on
  }

  /** `config.set(k, v)` for a boolean key: only `k` changes. */
  function Set(c: Config, k: BoolKey, v: bool): (r: Config)
    ensures Get(r, k) == v
    ensures forall k' :: k' != k ==> Get(r, k') == Get(c, k')
    ensures r.vibrancy == c.vibrancy && r.theme == c.theme && r.sidebar == c.sidebar
  {
    c.(on := if v then c.on + {k} else c.on - {k})
  }

  /** `config.get` for a string key. */
  function Stored(c: Config, g: Group): string {
    match g
    case VibrancyGroup => c.vibrancy
    case ThemeGroup => c.theme
    case SidebarGroup => c.sidebar
  }

  /** `config.set` for a string key: only that key changes. */
  function Choose(c: Config, g: Group, s: string): (r: Config)
    ensures Stored(r, g) == s
    ensures forall h :: h != g ==> Stored(r, h) == Stored(c, h)
    ensures r.on == c.on
  {
    match g
    case VibrancyGroup => c.(vibrancy := s)
    case ThemeGroup => c.(theme := s)
    case SidebarGroup => c.(sidebar := s)
  }

  /** Every string key holds one of its group's values. */
  predicate WellFormed(c: Config) {
    forall g :: ChoiceNamed(g, Stored(c, g)).Some?
  }

  /** Setting a boolean key twice to its old value restores the store exactly. */
  lemma {:induction false} SetRestores(c: Config, k: BoolKey, v: bool)
    ensures Set(Set(c, k, v), k, Get(c, k)) == c
  {
    var r := Set(Set(c, k, v), k, Get(c, k));
    assert forall k' :: k' in r.on <==> k' in c.on;
    assert r.on == c.on;
  }
}
