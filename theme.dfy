/**
 * Colour themes: the palette each theme gives a card, the five activity levels of
 * GitHub's contribution calendar and what each theme paints them with.
 */
module Themes {
  import opened Wrappers

  /** The five levels GitHub's calendar colours a day with. */
  datatype ActivityColor = Inactive | Small | Medium | High | VeryHigh

  /** GitHub's own colour for each level: the keys `from_key` recognises. */
  function ActivityKey(c: ActivityColor): string {
    match c
    case Inactive => "#ebedf0"
    case Small => "#9be9a8"
    case Medium => "#40c463"
    case High => "#30a14e"
    case VeryHigh => "#216e39"
  }

  /** The level whose GitHub colour is exactly `key` (compared case-sensitively), if any. */
  function ActivityColorFromKey(key: string): (r: Option<ActivityColor>)
    ensures r.Some? ==> ActivityKey(r.value) == key
  {
    match key
    case "#ebedf0" => Some(Inactive)
    case "#9be9a8" => Some(Small)
    case "#40c463" => Some(Medium)
    case "#30a14e" => Some(High)
    case "#216e39" => Some(VeryHigh)
    case _ => None
  }

  /** Every level's GitHub colour is recognised as that level, so `from_key` is Some exactly on the five keys. */
  lemma ActivityKeyRoundTrip(c: ActivityColor)
    ensures ActivityColorFromKey(ActivityKey(c)) == Some(c)
  {
  }

  /** Distinct keys never give the same level. */
  lemma ActivityColorFromKeyInjective(k1: string, k2: string)
    requires ActivityColorFromKey(k1).Some? && k1 != k2
    ensures ActivityColorFromKey(k1) != ActivityColorFromKey(k2)
  {
  }

  /** The lookup is case-sensitive: an upper-cased GitHub colour is not a key. */
  lemma ActivityColorFromKeyCaseSensitive()
    ensures ActivityColorFromKey("#EBEDF0") == None
  {
  }

  datatype Theme =
    | CatppuccinMacchiato
    | CatppuccinMocha
    | CatppuccinLatte
    | CatppuccinFrappe
    | Dark
    | White
    | OneDarkProFlat
    | Dracula
    | KanagawaWave
    | AyuMirage
    | AyuWhite
    | MonokaiClassic

  /** The colours a card is drawn with. */
  datatype ThemeData = ThemeData(
    background: string,
    surfaceBackground: string,
    text: string,
    header: string,
    monoIcon: string)

  /** The name a theme is written as in a request. */
  function ThemeName(t: Theme): string {
    match t
    case CatppuccinMacchiato => "catppuccin-macchiato"
    case CatppuccinMocha => "catppuccin-mocha"
    case CatppuccinLatte => "catppuccin-latte"
    case CatppuccinFrappe => "catppuccin-frappe"
    case Dark => "dark"
    case White => "white"
    case OneDarkProFlat => "onedark-pro-flat"
    case Dracula => "dracula"
    case KanagawaWave => "kanagawa-wave"
    case AyuMirage => "ayu-mirage"
    case AyuWhite => "ayu-white"
    case MonokaiClassic => "monokai-classic"
  }

  /** The theme a request names, accepting the misspelt alias "catpuccin-macchiato". */
  function ParseTheme(s: string): (r: Option<Theme>)
    ensures r.Some? ==> s == ThemeName(r.value) || (s == "catpuccin-macchiato" && r.value == CatppuccinMacchiato)
  {
    match s
    case "catppuccin-macchiato" => Some(CatppuccinMacchiato)
    case "catpuccin-macchiato" => Some(CatppuccinMacchiato)
    case "catppuccin-mocha" => Some(CatppuccinMocha)
    case "catppuccin-latte" => Some(CatppuccinLatte)
    case "catppuccin-frappe" => Some(CatppuccinFrappe)
    case "dark" => Some(Dark)
    case "white" => Some(White)
    case "onedark-pro-flat" => Some(OneDarkProFlat)
    case "dracula" => Some(Dracula)
    case "kanagawa-wave" => Some(KanagawaWave)
    case "ayu-mirage" => Some(AyuMirage)
    case "ayu-white" => Some(AyuWhite)
    case "monokai-classic" => Some(MonokaiClassic)
    case _ => None
  }

  /** Every theme's name parses back to that theme. */
  lemma ThemeNameRoundTrip(t: Theme)
    ensures ParseTheme(ThemeName(t)) == Some(t)
  {
  }

  /** Different themes have different names. */
  lemma ThemeNameInjective(a: Theme, b: Theme)
    ensures ThemeName(a) == ThemeName(b) ==> a == b
  {
    ThemeNameRoundTrip(a);
    ThemeNameRoundTrip(b);
  }

  predicate IsHexDigit(c: char) {
    '0' <= c <= '9' || 'a' <= c <= 'f' || 'A' <= c <= 'F'
  }

  /** `s` is written `#` followed by 3, 6 or 8 hexadecimal digits. */
  predicate IsHexColor(s: string) {
    (|s| == 4 || |s| == 7 || |s| == 9) && s[0] == '#'
    && forall i :: 1 <= i < |s| ==> IsHexDigit(s[i])
  }

  /** The palette of every theme. */
  function GetData(t: Theme): (d: ThemeData)
  {
    match t
    case CatppuccinMacchiato => ThemeData("#24273A", "#363a4f", "#CAD3F5", "#C6A0F6", "#8087a2")
    case CatppuccinMocha => ThemeData("#1e1e2e", "#313244", "#cdd6f4", "#cba6f7", "#7f849c")
    case CatppuccinLatte => ThemeData("#eff1f5", "#ccd0da", "#4c4f69", "#8839ef", "#8c8fa1")
    case CatppuccinFrappe => ThemeData("#303446", "#414559", "#c6d0f5", "#ca9ee6", "#838ba7")
    case Dark => ThemeData("#1D1D1D", "#27272A", "#cfcfcf", "#FF6363", "#A5A5A5")
    case White => ThemeData("#fff", "#e5e5e5", "#05010d", "#FF6363", "#A5A5A5")
    case OneDarkProFlat => ThemeData("#282c34", "#404754", "#c7ccd6", "#e06c75", "#abb2bf")
    case Dracula => ThemeData("#282A36", "#44475A", "#F8F8F2", "#8be9fd", "#8b949e")
    case KanagawaWave => ThemeData("#1F1F28", "#363646", "#DCD7BA", "#E6C384", "#727169")
    case AyuMirage => ThemeData("#242936", "#69758C1F", "#CCCAC2", "#FFCC66", "#8A9199CC")
    case AyuWhite => ThemeData("#FCFCFC", "#6B7D8F1F", "#5C6166", "#FFAA33", "#8A9199CC")
    case MonokaiClassic => ThemeData("#272822", "#414339", "#f8f8f2", "#E6DB74", "#75715e")
  }

  /** The colour every theme paints each activity level with. */
  function GetActivityColor(t: Theme, c: ActivityColor): (hex: string)
  {
    match t
    case CatppuccinMacchiato =>
      (match c
      case Inactive => "#494d64"
      case Small => "#42583c"
      case Medium => "#7ea072"
      case High => "#a6da95"
      case VeryHigh => "#8ddb73")
    case CatppuccinMocha =>
      (match c
      case Inactive => "#45475a"
      case Small => "#42583c"
      case Medium => "#7ea072"
      case High => "#a6e3a1"
      case VeryHigh => "#8ddb73")
    case CatppuccinLatte =>
      (match c
      case Inactive => "#bcc0cc"
      case Small => "#9be9a8"
      case Medium => "#40c463"
      case High => "#40a02b"
      case VeryHigh => "#216e39")
    case CatppuccinFrappe =>
      (match c
      case Inactive => "#51576d"
      case Small => "#42583c"
      case Medium => "#7ea072"
      case High => "#a6d189"
      case VeryHigh => "#8ddb73")
    case Dark =>
      (match c
      case Inactive => "#27272A"
      case Small => "#42583c"
      case Medium => "#7ea072"
      case High => "#a6da95"
      case VeryHigh => "#8ddb73")
    case White =>
      (match c
      case Inactive => "#e5e5e5"
      case Small => "#9be9a8"
      case Medium => "#40c463"
      case High => "#30a14e"
      case VeryHigh => "#216e39")
    case OneDarkProFlat =>
      (match c
      case Inactive => "#404754"
      case Small => "#42583c"
      case Medium => "#7ea072"
      case High => "#98c379"
      case VeryHigh => "#8ddb73")
    case Dracula =>
      (match c
      case Inactive => "#44475A"
      case Small => "#6272a4"
      case Medium => "#8be9fd"
      case High => "#bd93f9"
      case VeryHigh => "#ff79c6")
    case KanagawaWave =>
      (match c
      case Inactive => "#363646"
      case Small => "#7B6B45"
      case Medium => "#C0A36E"
      case High => "#DCA561"
      case VeryHigh => "#E6C384")
    case AyuMirage =>
      (match c
      case Inactive => "#8A919959"
      case Small => "#EACA88"
      case Medium => "#F29E74"
      case High => "#F27983"
      case VeryHigh => "#FF6666")
    case AyuWhite =>
      (match c
      case Inactive => "#8A919959"
      case Small => "#F4C989"
      case Medium => "#ED9366"
      case High => "#FF7383"
      case VeryHigh => "#E65050")
    case MonokaiClassic =>
      (match c
      case Inactive => "#75715E"
      case Small => "#848528"
      case Medium => "#E6DB74"
      case High => "#e2e22e"
      case VeryHigh => "#A6E22E")
  }

  /** Every theme's palette consists of well-formed hex colours. */
  lemma GetDataWellFormed(t: Theme)
    ensures var d := GetData(t);
      IsHexColor(d.background) && IsHexColor(d.surfaceBackground) && IsHexColor(d.text)
      && IsHexColor(d.header) && IsHexColor(d.monoIcon)
  {
    BackgroundWellFormed(t);
    SurfaceWellFormed(t);
    TextWellFormed(t);
    HeaderWellFormed(t);
    MonoIconWellFormed(t);
  }

  lemma BackgroundWellFormed(t: Theme)
    ensures IsHexColor(GetData(t).background)
  {
  }

  lemma SurfaceWellFormed(t: Theme)
    ensures IsHexColor(GetData(t).surfaceBackground)
  {
  }

  lemma TextWellFormed(t: Theme)
    ensures IsHexColor(GetData(t).text)
  {
  }

  lemma HeaderWellFormed(t: Theme)
    ensures IsHexColor(GetData(t).header)
  {
  }

  lemma MonoIconWellFormed(t: Theme)
    ensures IsHexColor(GetData(t).monoIcon)
  {
  }

  /** Every theme paints every level with a well-formed hex colour. */
  lemma GetActivityColorWellFormed(t: Theme, c: ActivityColor)
    ensures IsHexColor(GetActivityColor(t, c))
  {
    match c
    case Inactive => InactiveWellFormed(t);
    case Small => SmallWellFormed(t);
    case Medium => MediumWellFormed(t);
    case High => HighWellFormed(t);
    case VeryHigh => VeryHighWellFormed(t);
  }

  lemma InactiveWellFormed(t: Theme)
    ensures IsHexColor(GetActivityColor(t, Inactive))
  {
  }

  lemma SmallWellFormed(t: Theme)
    ensures IsHexColor(GetActivityColor(t, Small))
  {
  }

  lemma MediumWellFormed(t: Theme)
    ensures IsHexColor(GetActivityColor(t, Medium))
  {
  }

  lemma HighWellFormed(t: Theme)
    ensures IsHexColor(GetActivityColor(t, High))
  {
  }

  lemma VeryHighWellFormed(t: Theme)
    ensures IsHexColor(GetActivityColor(t, VeryHigh))
  {
  }

  /** The white theme keeps GitHub's own colours for every level but Inactive. */
  lemma WhiteKeepsGithubPalette(c: ActivityColor)
    requires c != Inactive
    ensures GetActivityColor(White, c) == ActivityKey(c)
  {
  }

  /** In these themes an inactive day has the colour of the card's surface. */
  lemma InactiveIsSurface(t: Theme)
    requires t == Dark || t == White || t == OneDarkProFlat || t == Dracula || t == KanagawaWave
    ensures GetActivityColor(t, Inactive) == GetData(t).surfaceBackground
  {
  }
}
