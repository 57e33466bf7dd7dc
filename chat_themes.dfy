/**
 * Chat colour themes: the four theme definitions, the lookup that falls
 * back to the default theme, and the resolution of text colours under a
 * text mode that may force light or dark text.  Colours are Tailwind class
 * names, kept as strings.
 */
module ChatThemes {
  import opened Common

  datatype Layout = Layout(pageBg: string, headerBg: string, headerBorder: string,
                           messagesBg: string, inputBg: string, inputBorder: string)

  datatype Bubbles = Bubbles(userBg: string, userText: string, aiBg: string, aiText: string,
                             replyPreviewBg: string, replyPreviewBorder: string, replyPreviewText: string)

  datatype Helpers = Helpers(scrollButtonBg: string, scrollButtonBorder: string, scrollIcon: string)

  datatype Buttons = Buttons(primaryBg: string, primaryText: string, primaryHover: string,
                             dangerBg: string, dangerText: string)

  datatype InputColors = InputColors(text: string, placeholder: string)

  /** The notice banner, coloured to contrast with the theme's background. */
  datatype Notice = Notice(bg: string, border: string, text: string, link: string)

  /** `ChatThemeDefinition`; `isDark` decides the header text in auto mode. */
  datatype ChatTheme = ChatTheme(id: string, name: string, description: string, isDark: bool,
                                 layout: Layout, bubbles: Bubbles, helpers: Helpers, buttons: Buttons,
                                 input: InputColors, notice: Notice, previewColors: seq<string>)

  const MidnightTheme: ChatTheme := ChatTheme(
    "midnight", "Midnight", "Nền tối, dễ đọc ban đêm \U{1F319}", true,
    Layout("bg-neutral-950", "bg-neutral-900", "border-neutral-700", "bg-gradient-to-b from-neutral-950 to-neutral-900", "bg-neutral-900", "border-neutral-700"),
    Bubbles("bg-gray-700", "text-yellow-200", "bg-gray-800", "text-yellow-200", "bg-neutral-800/70", "border-neutral-600", "text-gray-200"),
    Helpers("bg-neutral-800", "border-neutral-600", "text-gray-100"),
    Buttons("bg-blue-600", "text-gray-50", "hover:bg-blue-500", "bg-red-900/60", "text-red-300"),
    InputColors("text-gray-50", "placeholder:text-gray-500"),
    Notice("bg-amber-900/90", "border border-amber-700", "text-amber-100", "text-amber-300 hover:text-white underline font-semibold"),
    ["#0a0a0a", "#2563eb", "#171717"])

  const TwilightTheme: ChatTheme := ChatTheme(
    "twilight", "Twilight", "Nền tím nhẹ, aesthetic ✨", true,
    Layout("bg-violet-950", "bg-violet-900", "border-violet-700", "bg-gradient-to-b from-violet-950 to-purple-950", "bg-violet-900", "border-violet-700"),
    Bubbles("bg-purple-700", "text-gray-100", "bg-purple-800", "text-gray-100", "bg-violet-800/70", "border-violet-600", "text-violet-200"),
    Helpers("bg-violet-800", "border-violet-600", "text-violet-100"),
    Buttons("bg-violet-700", "text-violet-100", "hover:bg-violet-600", "bg-red-900/60", "text-red-300"),
    InputColors("text-white", "placeholder:text-violet-300"),
    Notice("bg-amber-900/90", "border border-amber-700", "text-amber-100", "text-amber-300 hover:text-white underline font-semibold"),
    ["#2e1065", "#c026d3", "#4c1d95"])

  const SakuraTheme: ChatTheme := ChatTheme(
    "sakura", "Sakura", "Hồng pastel, ngọt ngào \U{1F338}", false,
    Layout("bg-gray-100", "bg-gray-50", "border-gray-200", "bg-gradient-to-b from-gray-100 to-gray-50", "bg-white", "border-gray-300"),
    Bubbles("bg-pink-600", "text-black", "bg-pink-700", "text-black", "bg-pink-200/70", "border-pink-300", "text-gray-700"),
    Helpers("bg-white", "border-gray-300", "text-pink-600"),
    Buttons("bg-blue-600", "text-white", "hover:bg-blue-500", "bg-red-100", "text-red-600"),
    InputColors("text-gray-800", "placeholder:text-gray-400"),
    Notice("bg-rose-700", "border border-rose-600", "text-white", "text-rose-200 hover:text-white underline font-semibold"),
    ["#f3f4f6", "#ec4899", "#ffffff"])

  const OceanTheme: ChatTheme := ChatTheme(
    "ocean", "Ocean", "Xanh dương tươi mát \U{1F30A}", true,
    Layout("bg-cyan-950", "bg-cyan-900", "border-cyan-700", "bg-gradient-to-b from-cyan-950 to-blue-950", "bg-cyan-900", "border-cyan-700"),
    Bubbles("bg-blue-700", "text-gray-100", "bg-blue-800", "text-gray-100", "bg-cyan-800/70", "border-cyan-600", "text-cyan-200"),
    Helpers("bg-cyan-800", "border-cyan-600", "text-cyan-100"),
    Buttons("bg-cyan-700", "text-cyan-100", "hover:bg-cyan-600", "bg-red-900/60", "text-red-300"),
    InputColors("text-white", "placeholder:text-cyan-300"),
    Notice("bg-amber-900/90", "border border-amber-700", "text-amber-100", "text-amber-300 hover:text-white underline font-semibold"),
    ["#083344", "#06b6d4", "#1e3a5f"])


  /** `chatThemes`, keyed by theme id. */
  const Themes: map<string, ChatTheme> :=
    map["midnight" := MidnightTheme, "twilight" := TwilightTheme, "sakura" := SakuraTheme, "ocean" := OceanTheme]

  const DefaultThemeId: string := "midnight"

  /** `TEXT_MODE_OPTIONS`: the selectable modes and their labels. */
  const TextModeOptions: seq<(string, string)> :=
    [("auto", "Tự động (theo theme)"), ("light", "Chữ sáng (trắng)"), ("dark", "Chữ đậm (tối)")]

  /** Every theme is stored under its own id, and the default id is one of them. */
  lemma ThemeIdsMatchKeys()
    ensures Themes.Keys == {"midnight", "twilight", "sakura", "ocean"}
    ensures forall k :: k in Themes ==> Themes[k].id == k
    ensures DefaultThemeId in Themes && Themes[DefaultThemeId] == MidnightTheme
  {
  }

  /** `getThemeById`: the theme stored under the id, or midnight for a missing or unknown id. */
  function GetThemeById(id: Option<string>): (theme: ChatTheme)
    ensures id.Some? && id.value in Themes ==> theme == Themes[id.value] && theme.id == id.value
    ensures !(id.Some? && id.value in Themes) ==> theme == MidnightTheme
    ensures theme in Themes.Values
  {
    if id.Some? && id.value in Themes then
      assert Themes[id.value].id == id.value by { ThemeIdsMatchKeys(); }
      Themes[id.value]
    else
      assert Themes["midnight"] == MidnightTheme;
      MidnightTheme
  }

  const LightText: string := "text-white"
  const DarkText: string := "text-slate-900"

  /** The mode in force: the given one, or `auto` when missing or empty. */
  function ModeOf(textMode: Option<string>): string
  {
    if Present(textMode) then textMode.value else "auto"
  }

  /** `resolveText`: light and dark modes force their colour, any other mode keeps the default. */
  function ResolveText(mode: string, themeDefault: string): string
  {
    if mode == "light" then LightText
    else if mode == "dark" then DarkText
    else themeDefault
  }

  /** The theme, spread unchanged, together with the resolved text colours. */
  datatype ResolvedTheme = ResolvedTheme(theme: ChatTheme, headerText: string, userText: string, aiText: string,
                                         replyText: string, buttonText: string, dangerText: string,
                                         inputText: string, scrollIcon: string)

  /** `getResolvedTheme`. */
  function GetResolvedTheme(themeId: Option<string>, textMode: Option<string>): (r: ResolvedTheme)
    ensures r.theme == GetThemeById(themeId)
    ensures r.userText == r.theme.bubbles.userText && r.dangerText == r.theme.buttons.dangerText
  {
    var theme := GetThemeById(themeId);
    var mode := ModeOf(textMode);
    ResolvedTheme(theme,
                  ResolveText(mode, if theme.isDark then LightText else DarkText),
                  theme.bubbles.userText,
                  ResolveText(mode, theme.bubbles.aiText),
                  ResolveText(mode, theme.bubbles.replyPreviewText),
                  ResolveText(mode, theme.buttons.primaryText),
                  theme.buttons.dangerText,
                  ResolveText(mode, theme.input.text),
                  ResolveText(mode, theme.helpers.scrollIcon))
  }

  /** The six texts a text mode may override. */
  function Overridable(r: ResolvedTheme): seq<string>
  {
    [r.headerText, r.aiText, r.replyText, r.buttonText, r.inputText, r.scrollIcon]
  }

  /** In light mode every overridable text is white, whatever the theme. */
  lemma LightModeForcesWhite(themeId: Option<string>)
    ensures var r := GetResolvedTheme(themeId, Some("light"));
            forall k :: 0 <= k < |Overridable(r)| ==> Overridable(r)[k] == LightText
  {
  }

  /** In dark mode every overridable text is slate-900, whatever the theme. */
  lemma DarkModeForcesSlate(themeId: Option<string>)
    ensures var r := GetResolvedTheme(themeId, Some("dark"));
            forall k :: 0 <= k < |Overridable(r)| ==> Overridable(r)[k] == DarkText
  {
  }

  /**
   * An auto, missing, empty or unrecognised mode keeps the theme's own
   * colours, and the header follows the theme's darkness.
   */
  lemma OtherModesKeepDefaults(themeId: Option<string>, textMode: Option<string>)
    requires !(textMode == Some("light") || textMode == Some("dark"))
    ensures var r := GetResolvedTheme(themeId, textMode);
            var t := GetThemeById(themeId);
            r.aiText == t.bubbles.aiText && r.replyText == t.bubbles.replyPreviewText &&
            r.buttonText == t.buttons.primaryText && r.inputText == t.input.text &&
            r.scrollIcon == t.helpers.scrollIcon &&
            r.headerText == (if t.isDark then LightText else DarkText)
  {
  }

  /** In auto mode the header is white exactly when the theme is dark, and slate-900 otherwise. */
  lemma AutoHeaderFollowsDarkness(themeId: Option<string>)
    ensures var r := GetResolvedTheme(themeId, Some("auto"));
            (r.headerText == LightText <==> r.theme.isDark) &&
            (r.headerText == DarkText <==> !r.theme.isDark)
  {
  }

  /** Sakura is the one light theme: with no mode its header is dark, the others' white. */
  lemma SakuraIsTheLightTheme(id: string)
    requires id in Themes
    ensures !Themes[id].isDark <==> id == "sakura"
  {
  }
}
