/** The reader's preference tables and defaults (src/config/readerTheme.js):
    the font-size bounds, the line-height, margin, font-family and theme
    option tables, the default preferences and the base theme handed to the
    rendering engine. */
module ReaderTheme {
  import opened Common

  datatype FontSizeBounds = FontSizeBounds(min: int, max: int, step: int, offset: int)
  datatype LineHeightOption = LineHeightOption(id: string, value: real, text: string)
  datatype MarginOption = MarginOption(id: string, value: int, text: string)
  datatype FontFamily = FontFamily(id: string, name: string, value: string)
  datatype Theme = Theme(id: string, name: string, backgroundColor: string, color: string, bodyTheme: string)

  const FontSize := FontSizeBounds(50, 250, 10, 50)

  const LineHeights: seq<LineHeightOption> := [
    LineHeightOption("compact", 1.4, "Compact"),
    LineHeightOption("normal", 1.6, "Normal"),
    LineHeightOption("relaxed", 1.8, "Relaxed")
  ]

  const Margins: seq<MarginOption> := [
    MarginOption("narrow", 4, "Narrow"),
    MarginOption("normal", 8, "Normal"),
    MarginOption("wide", 16, "Wide")
  ]

  const Fonts: seq<FontFamily> := [
    FontFamily("reader-font-family-arial", "Arial", "'Arial', sans-serif"),
    FontFamily("reader-font-family-times", "Times", "'Times New Roman', serif"),
    FontFamily("reader-font-family-roboto", "Roboto", "'Roboto', sans-serif"),
    FontFamily("reader-font-family-baskerville", "Baskerville", "'Baskerville', serif"),
    FontFamily("reader-font-family-bookerly", "Bookerly", "'Bookerly', serif"),
    FontFamily("reader-font-family-cecilia", "Cecilia", "'Cecilia', serif")
  ]

  const Themes: seq<Theme> := [
    Theme("reader-theme-light", "Light", "#ffffff", "#000000", "light"),
    Theme("reader-theme-dark", "Dark", "#1a1a1a", "#ffffff", "dark"),
    Theme("reader-theme-sepia", "Reader", "#f4f1ea", "#5c4b37", "sepia")
  ]

  /** `fonts.findIndex(f => f.id === id)`: the first position holding `id`, or -1. */
  function FontIndex(fonts: seq<FontFamily>, id: string): (r: int)
    ensures -1 <= r < |fonts|
    ensures r == -1 <==> forall j :: 0 <= j < |fonts| ==> fonts[j].id != id
    ensures r >= 0 ==> fonts[r].id == id && forall j :: 0 <= j < r ==> fonts[j].id != id
  {
    if fonts == [] then -1
    else if fonts[0].id == id then 0
    else
      var k := FontIndex(fonts[1..], id);
      if k == -1 then -1 else k + 1
  }

  /** `fonts.find(f => f.id === id)` */
  function FindFont(fonts: seq<FontFamily>, id: string): (r: Option<FontFamily>)
    ensures r.None? <==> forall j :: 0 <= j < |fonts| ==> fonts[j].id != id
    ensures r.Some? ==> r.value in fonts && r.value.id == id
  {
    var k := FontIndex(fonts, id);
    if k == -1 then None else Some(fonts[k])
  }

  /** `themes.find(t => t.id === id)`: the first theme holding `id`. */
  function FindTheme(themes: seq<Theme>, id: string): (r: Option<Theme>)
    ensures r.None? <==> forall j :: 0 <= j < |themes| ==> themes[j].id != id
    ensures r.Some? ==> r.value in themes && r.value.id == id
    ensures themes != [] && themes[0].id == id ==> r == Some(themes[0])
  {
    if themes == [] then None
    else if themes[0].id == id then Some(themes[0])
    else FindTheme(themes[1..], id)
  }

  predicate FontIdsUnique(fonts: seq<FontFamily>)
  {
    forall i, j :: 0 <= i < j < |fonts| ==> fonts[i].id != fonts[j].id
  }

  predicate ThemeIdsUnique(themes: seq<Theme>)
  {
    forall i, j :: 0 <= i < j < |themes| ==> themes[i].id != themes[j].id
  }

  /** With unique ids, looking up the id of the font at `k` gives back `k`. */
  lemma FontIndexOfId(fonts: seq<FontFamily>, k: nat)
    requires FontIdsUnique(fonts)
    requires k < |fonts|
    ensures FontIndex(fonts, fonts[k].id) == k
  {
  }

  // ---------------------------------------------------------------------
  // Defaults

  /** `ReaderDefault`: the font and theme are looked up by id in the tables. */
  datatype Defaults = Defaults(
    fontSize: int,
    lineHeight: real,
    margin: int,
    fontFamily: Option<FontFamily>,
    theme: Option<Theme>)

  const ReaderDefault := Defaults(60, 1.6, 8,
    FindFont(Fonts, "reader-font-family-roboto"),
    FindTheme(Themes, "reader-theme-light"))

  /** A CSS percentage: one or more decimal digits followed by `%`. */
  predicate IsPercent(s: string)
  {
    |s| >= 2 && s[|s| - 1] == '%' && forall i :: 0 <= i < |s| - 1 ==> '0' <= s[i] <= '9'
  }

  /** `ReaderBaseTheme.body`: the CSS variables the engine starts from. */
  datatype BaseBody = BaseBody(
    fontFamily: string,
    fontSize: string,
    lineHeight: real,
    margin: string,
    backgroundColor: string,
    color: string)

  /** `ReaderBaseTheme.body` for the given defaults: sizes as percentages,
      the font's stack and the theme's colours. */
  function BaseTheme(d: Defaults): (b: BaseBody)
    requires d.fontSize >= 0 && d.margin >= 0 && d.fontFamily.Some? && d.theme.Some?
    ensures IsPercent(b.fontSize) && IsPercent(b.margin)
    ensures b.fontFamily == d.fontFamily.value.value && b.lineHeight == d.lineHeight
    ensures b.backgroundColor == d.theme.value.backgroundColor && b.color == d.theme.value.color
  {
    BaseBody(
      d.fontFamily.value.value,
      NatToString(d.fontSize) + "%",
      d.lineHeight,
      NatToString(d.margin) + "%",
      d.theme.value.backgroundColor,
      d.theme.value.color)
  }

  /** The tables are well formed: ids are unique in each, and the font-size
      bounds are ordered with a step that divides the range. */
  lemma TablesWellFormed()
    ensures FontIdsUnique(Fonts) && ThemeIdsUnique(Themes)
    ensures FontSize.min == 50 && FontSize.max == 250 && FontSize.step == 10
    ensures FontSize.min < FontSize.max && (FontSize.max - FontSize.min) % FontSize.step == 0
  {
  }

  /** The defaults resolve to table entries and lie within the option ranges:
      font Roboto, theme Light, font size inside the bounds, the margin is one
      of the margin options and the line height is the "normal" option. */
  lemma DefaultsResolve()
    ensures ReaderDefault.fontFamily == Some(Fonts[2]) && Fonts[2].name == "Roboto"
    ensures ReaderDefault.theme == Some(Themes[0]) && Themes[0].name == "Light"
    ensures FontSize.min <= ReaderDefault.fontSize <= FontSize.max
    ensures exists k :: 0 <= k < |Margins| && Margins[k].value == ReaderDefault.margin
    ensures LineHeights[1].id == "normal" && LineHeights[1].value == ReaderDefault.lineHeight
  {
    assert FontIndex(Fonts, "reader-font-family-roboto") == 2 by {
      TablesWellFormed();
      FontIndexOfId(Fonts, 2);
    }
    assert Margins[1].value == ReaderDefault.margin;
  }

  /** `ReaderBaseTheme.body` carries font size "60%", margin "8%", the Roboto
      font stack and the Light theme's colours. */
  lemma BaseThemeOfDefaults()
    ensures ReaderDefault.fontFamily.Some? && ReaderDefault.theme.Some?
    ensures BaseTheme(ReaderDefault).fontSize == "60%"
    ensures BaseTheme(ReaderDefault).margin == "8%"
    ensures BaseTheme(ReaderDefault).fontFamily == "'Roboto', sans-serif"
    ensures BaseTheme(ReaderDefault).backgroundColor == "#ffffff" && BaseTheme(ReaderDefault).color == "#000000"
    ensures BaseTheme(ReaderDefault).lineHeight == 1.6
  {
    DefaultsResolve();
    assert NatToString(60) == "60";
    assert NatToString(8) == "8";
  }
}
