/**
  The menu template. Its layout (which items appear, in which order, under
  which submenu) depends only on the platform and the build; rendering it
  against a configuration decorates every item with its derived checked,
  visible and enabled state. A rebuild is a fresh rendering.
 */
module Template {
  import opened Settings
  import opened MenuItems
  import opened View
  import opened Clicks

  /** Electron roles used by the template. */
  datatype Role = AppMenu | FileMenu | EditMenu | ViewMenu | WindowMenu | HelpMenu | Close | Quit

  /** Submenu contents produced by code outside the menu. */
  datatype Generator = EmojiStyles | SpellCheckerLanguages

  /** An undecorated template entry. */
  datatype Layout =
    | Leaf(id: ItemId)
    | Sep
    | Sub(id: ItemId, children: seq<Layout>)
    | RoleEntry(role: Role, children: seq<Layout>)
    | Generated(source: Generator)

  /** A rendered template entry, as handed to the native menu factory. */
  datatype Node =
    | Entry(id: ItemId, kind: Kind, checked: bool, visible: bool, enabled: bool)
    | Separator
    | Submenu(id: ItemId, visible: bool, children: seq<Node>)
    | RoleNode(role: Role, children: seq<Node>)
    | GeneratedNode(source: Generator)

  function Render(c: Config, env: Env, l: Layout): Node {
    match l
    case Leaf(id) => Entry(id, KindOf(id), CheckedOf(c, env, id), VisibleOf(c, env, id), EnabledOf(c, env, id))
    case Sep => Separator
    case Sub(id, ch) =>
      Submenu(id, VisibleOf(c, env, id), seq(|ch|, i requires 0 <= i < |ch| => Render(c, env, ch[i])))
    case RoleEntry(r, ch) => RoleNode(r, seq(|ch|, i requires 0 <= i < |ch| => Render(c, env, ch[i])))
    case Generated(g) => GeneratedNode(g)
  }

  function RenderAll(c: Config, env: Env, ls: seq<Layout>): (r: seq<Node>)
    ensures |r| == |ls| && forall i :: 0 <= i < |ls| ==> r[i] == Render(c, env, ls[i])
  {
    seq(|ls|, i requires 0 <= i < |ls| => Render(c, env, ls[i]))
  }

  /** Forgets the decoration: the layout a rendered entry came from. */
  function Erase(n: Node): Layout {
    match n
    case Entry(id, _, _, _, _) => Leaf(id)
    case Separator => Sep
    case Submenu(id, _, ch) => Sub(id, seq(|ch|, i requires 0 <= i < |ch| => Erase(ch[i])))
    case RoleNode(r, ch) => RoleEntry(r, seq(|ch|, i requires 0 <= i < |ch| => Erase(ch[i])))
    case GeneratedNode(g) => Generated(g)
  }

  function EraseAll(ns: seq<Node>): (r: seq<Layout>)
    ensures |r| == |ns| && forall i :: 0 <= i < |ns| ==> r[i] == Erase(ns[i])
  {
    seq(|ns|, i requires 0 <= i < |ns| => Erase(ns[i]))
  }

  /** Every entry of a rendered tree carries the state the view derives for its item. */
  predicate Decorated(c: Config, env: Env, n: Node) {
    match n
    case Entry(id, k, checked, visible, enabled) =>
      && k == KindOf(id)
      && checked == CheckedOf(c, env, id)
      && visible == VisibleOf(c, env, id)
      && enabled == EnabledOf(c, env, id)
    case Submenu(id, visible, ch) =>
      visible == VisibleOf(c, env, id) && forall i | 0 <= i < |ch| :: Decorated(c, env, ch[i])
    case RoleNode(_, ch) => forall i | 0 <= i < |ch| :: Decorated(c, env, ch[i])
    case _ => true
  }

  // ----- the layout of menu.ts -----

  function SwitchLayout(): seq<Layout> {
    [Leaf(SwitchTo(true)), Leaf(SwitchTo(false)), Leaf(Dispatch("log-out"))]
  }

  /** A radio group's submenu: one checkbox per entry of the group, in menu order. */
  function RadioLayout(g: Group): seq<Layout> {
    seq(|Options(g)|, i requires 0 <= i < |Options(g)| => Leaf(Radio(Options(g)[i])))
  }

  function PrivacyLayout(): seq<Layout> {
    [Leaf(Mirror(BlockChatSeen)), Leaf(Mirror(BlockTypingIndicator)), Leaf(Mirror(BlockDeliveryReceipt))]
  }

  function PreferencesLayout(): seq<Layout> {
    [ Sub(PrivacyMenu, PrivacyLayout()),
      Sub(EmojiMenu, [Generated(EmojiStyles)]),
      Leaf(Toggle(BounceDockOnMessage)),
      Leaf(Toggle(AutoplayVideos)),
      Leaf(Mirror(NotificationMessagePreview)),
      Leaf(MuteNotifications),
      Leaf(Toggle(CallRingtoneMuted)),
      Leaf(Toggle(ShowUnreadBadge)),
      Leaf(Toggle(IsSpellCheckerEnabled)),
      Leaf(Toggle(HardwareAcceleration)),
      Leaf(Toggle(MenuBarMode)),
      Leaf(AlwaysOnTopItem),
      Leaf(LaunchAtLogin),
      Leaf(Mirror(AutoHideMenuBar)),
      Leaf(Toggle(AutoUpdate)),
      Leaf(Mirror(FlashWindowOnMessage)),
      Leaf(ShowTrayIconItem),
      Leaf(LaunchMinimizedItem),
      Leaf(Toggle(QuitOnWindowClose)),
      Sep,
      Sub(AdvancedMenu, [Leaf(CustomStyles)]) ]
  }

  function ViewLayout(): seq<Layout> {
    [ Leaf(Dispatch("zoom-reset")),
      Leaf(Dispatch("zoom-in")),
      Leaf(Dispatch("zoom-out")),
      Sep,
      Sub(ThemeMenu, RadioLayout(ThemeGroup)),
      Sub(VibrancyMenu, RadioLayout(VibrancyGroup)),
      Sep,
      Leaf(PrivateModeItem),
      Sep,
      Sub(SidebarMenu, RadioLayout(SidebarGroup)),
      Leaf(Toggle(ShowMessageButtons)),
      Sep,
      Leaf(Dispatch("show-chats-view")),
      Leaf(Dispatch("show-marketplace-view")),
      Leaf(Dispatch("show-requests-view")),
      Leaf(Dispatch("show-archive-view")) ]
  }

  function ConversationLayout(): seq<Layout> {
    [ Leaf(Dispatch("mute-conversation")),
      Leaf(Dispatch("archive-conversation")),
      Leaf(Dispatch("delete-conversation")),
      Leaf(Dispatch("next-conversation")),
      Leaf(Dispatch("previous-conversation")),
      Leaf(Dispatch("find")),
      Leaf(Dispatch("search")),
      Leaf(Dispatch("insert-gif")),
      Leaf(Dispatch("insert-sticker")),
      Leaf(Dispatch("insert-emoji")),
      Leaf(Dispatch("attach-files")),
      Leaf(Dispatch("focus-text-input")),
      Sep,
      Sub(SpellCheckerMenu, [Generated(SpellCheckerLanguages)]) ]
  }

  /** The help entries every platform has. */
  function HelpBase(): seq<Layout> {
    [Leaf(Website), Leaf(SourceCode), Leaf(Donate), Leaf(ReportIssue)]
  }

  /** The help submenu: off macOS a separator and the About item are appended. */
  function HelpLayout(platform: Platform): seq<Layout> {
    if platform == MacOS then HelpBase() else HelpBase() + [Sep, Leaf(About)]
  }

  function DebugLayout(): seq<Layout> {
    [Leaf(ShowSettings), Leaf(ShowAppData), Sep, Leaf(DeleteSettings), Leaf(DeleteAppData)]
  }

  function MacTemplate(help: seq<Layout>): seq<Layout> {
    [ RoleEntry(AppMenu,
        [Sub(PreferencesMenu, PreferencesLayout()), Leaf(Dispatch("show-preferences")), Sep]
        + SwitchLayout() + [Sep, Leaf(RestartApp)]),
      RoleEntry(FileMenu, [Leaf(Dispatch("new-conversation")), Leaf(Dispatch("new-room")), Sep, RoleEntry(Close, [])]),
      RoleEntry(EditMenu, []),
      RoleEntry(ViewMenu, ViewLayout()),
      Sub(ConversationMenu, ConversationLayout()),
      RoleEntry(WindowMenu, []),
      RoleEntry(HelpMenu, help) ]
  }

  function OtherTemplate(help: seq<Layout>): seq<Layout> {
    [ RoleEntry(FileMenu,
        [ Leaf(Dispatch("new-conversation")), Leaf(Dispatch("new-room")), Sep,
          Sub(PreferencesMenu, PreferencesLayout()), Leaf(Dispatch("show-preferences")), Sep]
        + SwitchLayout() + [Sep, Leaf(RestartApp), RoleEntry(Quit, [])]),
      RoleEntry(EditMenu, []),
      RoleEntry(ViewMenu, ViewLayout()),
      Sub(ConversationMenu, ConversationLayout()),
      RoleEntry(HelpMenu, help) ]
  }

  /** The template's top-level entries without the debug submenu. */
  function BaseTemplate(env: Env): seq<Layout> {
    var help := HelpLayout(env.platform);
    if env.platform == MacOS then MacTemplate(help) else OtherTemplate(help)
  }

  /** The template's layout: chosen by platform, with the debug submenu last in development builds. */
  function Skeleton(env: Env): seq<Layout> {
    if env.development then BaseTemplate(env) + [Sub(DebugMenu, DebugLayout())] else BaseTemplate(env)
  }

  /** The menu a rebuild produces. */
  function Menu(c: Config, env: Env): seq<Node> {
    RenderAll(c, env, Skeleton(env))
  }

  // ----- properties -----

  /** Rendering only decorates: erasing the decoration gives back the layout. */
  lemma {:induction false} EraseRender(c: Config, env: Env, l: Layout)
    ensures Erase(Render(c, env, l)) == l
  {
    match l
    case Sub(id, ch) =>
      forall i | 0 <= i < |ch| ensures Erase(Render(c, env, ch[i])) == ch[i] {
        EraseRender(c, env, ch[i]);
      }
      assert Erase(Render(c, env, l)).children == ch;
    case RoleEntry(r, ch) =>
      forall i | 0 <= i < |ch| ensures Erase(Render(c, env, ch[i])) == ch[i] {
        EraseRender(c, env, ch[i]);
      }
      assert Erase(Render(c, env, l)).children == ch;
    case _ =>
  }

  /** Rendering decorates every entry, at every depth, with its derived state. */
  lemma {:induction false} RenderDecorated(c: Config, env: Env, l: Layout)
    ensures Decorated(c, env, Render(c, env, l))
  {
    match l
    case Sub(id, ch) =>
      forall i | 0 <= i < |ch| ensures Decorated(c, env, Render(c, env, ch[i])) {
        RenderDecorated(c, env, ch[i]);
      }
    case RoleEntry(r, ch) =>
      forall i | 0 <= i < |ch| ensures Decorated(c, env, Render(c, env, ch[i])) {
        RenderDecorated(c, env, ch[i]);
      }
    case _ =>
  }

  /**
    A rebuild is the template's layout with every item decorated from the
    configuration: its shape does not depend on the configuration, and every
    entry's checked, visible and enabled state is the derived one.
   */
  lemma {:induction false} MenuIsDecoratedSkeleton(c: Config, env: Env)
    ensures EraseAll(Menu(c, env)) == Skeleton(env)
    ensures forall i :: 0 <= i < |Menu(c, env)| ==> Decorated(c, env, Menu(c, env)[i])
  {
    var sk := Skeleton(env);
    forall i | 0 <= i < |sk| ensures Erase(Render(c, env, sk[i])) == sk[i] && Decorated(c, env, Render(c, env, sk[i])) {
      EraseRender(c, env, sk[i]);
      RenderDecorated(c, env, sk[i]);
    }
  }

  /**
    The macOS template, with its app menu first and a window-role menu, is
    chosen exactly on macOS; elsewhere the File menu comes first and ends with
    the quit role.
   */
  lemma TemplateChoice(env: Env)
    ensures var t := BaseTemplate(env);
      && (t[0].role == AppMenu <==> env.platform == MacOS)
      && ((exists i :: 0 <= i < |t| && t[i] == RoleEntry(WindowMenu, [])) <==> env.platform == MacOS)
      && (env.platform != MacOS ==>
            t[0].RoleEntry? && t[0].role == FileMenu && t[0].children[|t[0].children| - 1] == RoleEntry(Quit, []))
  {
    var t := BaseTemplate(env);
    if env.platform == MacOS {
      assert t[5] == RoleEntry(WindowMenu, []);
    } else {
      assert |t| == 5;
      assert forall i :: 0 <= i < 5 ==> t[i] != RoleEntry(WindowMenu, []);
    }
  }

  /** The debug submenu is appended as the last top-level entry exactly in development builds. */
  lemma DebugAppended(env: Env)
    ensures env.development ==> Skeleton(env) == BaseTemplate(env) + [Sub(DebugMenu, DebugLayout())]
    ensures !env.development ==> Skeleton(env) == BaseTemplate(env)
    ensures var sk := Skeleton(env);
      sk[|sk| - 1].Sub? && sk[|sk| - 1].id == DebugMenu <==> env.development
  {
  }

  /** The help submenu ends with the About item exactly off macOS. */
  lemma HelpEndsWithAbout(env: Env)
    ensures var t := BaseTemplate(env);
      && t[|t| - 1] == RoleEntry(HelpMenu, HelpLayout(env.platform))
      && (var help := HelpLayout(env.platform); help[|help| - 1] == Leaf(About) <==> env.platform != MacOS)
  {
  }

  /**
    The same choices seen on the rendered menu: a window-role menu exists
    exactly on macOS, and the last top-level entry is the debug submenu exactly
    in development builds.
   */
  lemma {:induction false} MenuTemplateChoice(c: Config, env: Env)
    ensures var m := Menu(c, env);
      && ((exists i :: 0 <= i < |m| && m[i] == RoleNode(WindowMenu, [])) <==> env.platform == MacOS)
      && (m[|m| - 1].Submenu? && m[|m| - 1].id == DebugMenu <==> env.development)
  {
    var m := Menu(c, env);
    var sk := Skeleton(env);
    MenuIsDecoratedSkeleton(c, env);
    TemplateChoice(env);
    DebugAppended(env);
    assert Erase(m[|m| - 1]) == sk[|sk| - 1];
    if env.platform == MacOS {
      assert sk[5] == RoleEntry(WindowMenu, []);
      assert m[5] == Render(c, env, sk[5]);
    } else {
      forall i | 0 <= i < |m| ensures m[i] != RoleNode(WindowMenu, []) {
        assert Erase(m[i]) == sk[i];
        if i < |BaseTemplate(env)| {
          assert sk[i] == BaseTemplate(env)[i];
        }
      }
    }
  }

  /** The positions of a rendered submenu whose checkbox is checked. */
  function CheckedIndices(ns: seq<Node>): set<int> {
    set i | 0 <= i < |ns| && ns[i].Entry? && ns[i].checked
  }

  /**
    A rendered radio submenu has a checked entry exactly at the position of the
    entry whose value is stored: one position when the stored string belongs to
    the group, none otherwise, never two.
   */
  lemma {:induction false} RenderedRadioExclusive(c: Config, env: Env, g: Group)
    ensures var ns := RenderAll(c, env, RadioLayout(g));
      var named := ChoiceNamed(g, Stored(c, g));
      && |ns| == |Options(g)|
      && (forall i :: 0 <= i < |ns| ==> ns[i].Entry? && ns[i].id == Radio(Options(g)[i]))
      && (named.Some? ==> exists i :: 0 <= i < |ns| && Options(g)[i] == named.value && CheckedIndices(ns) == {i})
      && (named.None? ==> CheckedIndices(ns) == {})
  {
    var ns := RenderAll(c, env, RadioLayout(g));
    var os := Options(g);
    var named := ChoiceNamed(g, Stored(c, g));
    forall i | 0 <= i < |ns| ensures ns[i].Entry? && ns[i].id == Radio(os[i]) && (ns[i].checked <==> Value(os[i]) == Stored(c, g)) {
      assert os[i] in os;
    }
    if named.Some? {
      assert named.value in os;
      var k :| 0 <= k < |os| && os[k] == named.value;
      forall i | i in CheckedIndices(ns) ensures i == k {
        ValueInjective(os[i], named.value);
      }
      assert k in CheckedIndices(ns);
      assert CheckedIndices(ns) == {k};
    } else {
      forall i | i in CheckedIndices(ns) ensures false {
        assert os[i] in os;
        ChoiceNamedValue(os[i]);
      }
      assert CheckedIndices(ns) == {};
    }
  }

  /** Starting from a well-formed store, after any sequence of clicks every rendered radio submenu has exactly one checked entry. */
  lemma {:induction false} ExactlyOneCheckedEntryAfterClicks(c: Config, env: Env, ps: seq<Press>, g: Group)
    requires WellFormed(c)
    ensures |CheckedIndices(RenderAll(Run(c, ps), env, RadioLayout(g)))| == 1
  {
    RunKeepsWellFormed(c, ps);
    RenderedRadioExclusive(Run(c, ps), env, g);
  }
}
