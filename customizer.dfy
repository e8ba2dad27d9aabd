/** The reader-preferences panel (src/components/ui/Customizer/Customizer.jsx):
    a preference record loaded from storage with defaults, replaced field by
    field by the panel's setters, and applied to the rendering engine with a
    fallback to the first theme and font when an id is unknown. */
module Customizer {
  import opened Common
  import opened ReaderTheme

  /** `readerPreferences`.  Font size and margin are percentages; `updateMargin`
      can make the font size fractional, so both are reals. */
  datatype Preferences = Preferences(
    fontSize: real,
    lineHeight: real,
    margin: real,
    fontFamily: string,
    theme: string)

  const DefaultFontId := "reader-font-family-roboto"
  const DefaultThemeId := "reader-theme-light"

  /** The record the panel starts with and falls back to field by field. */
  const DefaultPreferences := Preferences(60.0, 1.6, 8.0, DefaultFontId, DefaultThemeId)

  /** What `JSON.parse(localStorage.getItem("READER_PREFERENCES"))` yields:
      nothing stored (or a falsy value), text that does not parse, or an
      object whose fields may each be absent. */
  datatype Saved =
    | Missing
    | Unparseable
    | Parsed(fontSize: Option<real>, lineHeight: Option<real>, margin: Option<real>,
             fontFamily: Option<string>, theme: Option<string>)

  function OrElse<T>(o: Option<T>, d: T): T
  {
    if o.Some? then o.value else d
  }

  /** `loadSavedPreferences()` destructured with the defaults of `ReaderDefault`. */
  function LoadedPreferences(saved: Saved): (p: Preferences)
    ensures !saved.Parsed? ==> p == DefaultPreferences
    ensures saved.Parsed? ==>
      && (saved.fontSize.Some? ==> p.fontSize == saved.fontSize.value)
      && (saved.fontSize.None? ==> p.fontSize == DefaultPreferences.fontSize)
      && (saved.lineHeight.Some? ==> p.lineHeight == saved.lineHeight.value)
      && (saved.lineHeight.None? ==> p.lineHeight == DefaultPreferences.lineHeight)
      && (saved.margin.Some? ==> p.margin == saved.margin.value)
      && (saved.margin.None? ==> p.margin == DefaultPreferences.margin)
      && (saved.fontFamily.Some? ==> p.fontFamily == saved.fontFamily.value)
      && (saved.fontFamily.None? ==> p.fontFamily == DefaultFontId)
      && (saved.theme.Some? ==> p.theme == saved.theme.value)
      && (saved.theme.None? ==> p.theme == DefaultThemeId)
  {
    match saved
    case Parsed(fs, lh, m, ff, t) =>
      Preferences(OrElse(fs, 60.0), OrElse(lh, 1.6), OrElse(m, 8.0), OrElse(ff, DefaultFontId), OrElse(t, DefaultThemeId))
    case _ => DefaultPreferences
  }

  /** The defaults of the panel agree with `ReaderDefault`. */
  lemma DefaultsMatchConfig()
    ensures ReaderDefault.fontFamily.Some? && ReaderDefault.theme.Some?
    ensures DefaultPreferences.fontSize == ReaderDefault.fontSize as real
    ensures DefaultPreferences.lineHeight == ReaderDefault.lineHeight
    ensures DefaultPreferences.margin == ReaderDefault.margin as real
    ensures DefaultPreferences.fontFamily == ReaderDefault.fontFamily.value.id
    ensures DefaultPreferences.theme == ReaderDefault.theme.value.id
  {
    DefaultsResolve();
  }

  // ---------------------------------------------------------------------
  // Font-size buttons

  function Max(a: real, b: real): real { if a >= b then a else b }
  function Min(a: real, b: real): real { if a <= b then a else b }

  /** The "−" button: `Math.max(min, fontSize - 10)`. */
  function FontSizeDown(fs: real): (r: real)
    ensures r >= FontSize.min as real
    ensures r <= fs || r == FontSize.min as real
    ensures fs - 10.0 >= FontSize.min as real ==> r == fs - 10.0
    ensures fs - 10.0 < FontSize.min as real ==> r == FontSize.min as real
  {
    Max(FontSize.min as real, fs - 10.0)
  }

  /** The "+" button: `Math.min(max, fontSize + 10)`. */
  function FontSizeUp(fs: real): (r: real)
    ensures r <= FontSize.max as real
    ensures r >= fs || r == FontSize.max as real
    ensures fs + 10.0 <= FontSize.max as real ==> r == fs + 10.0
    ensures fs + 10.0 > FontSize.max as real ==> r == FontSize.max as real
  {
    Min(FontSize.max as real, fs + 10.0)
  }

  /** Both buttons keep a font size that starts within [50, 250] within it. */
  lemma FontSizeStaysInBounds(fs: real)
    requires FontSize.min as real <= fs <= FontSize.max as real
    ensures FontSize.min as real <= FontSizeDown(fs) <= FontSize.max as real
    ensures FontSize.min as real <= FontSizeUp(fs) <= FontSize.max as real
  {
  }

  /** "−" undoes "+" wherever "+" was not cut off at the maximum. */
  lemma FontSizeDownUndoesUp(fs: real)
    requires FontSize.min as real <= fs <= FontSize.max as real - 10.0
    ensures FontSizeDown(FontSizeUp(fs)) == fs
  {
  }

  // ---------------------------------------------------------------------
  // Margin

  /** `updateMargin`'s switch: 5, 10 and 15 have fixed font sizes, every other
      margin gets `80 + margin * 1.33`. */
  function MarginFontSize(m: real): (fs: real)
    ensures m == 5.0 ==> fs == 80.0
    ensures m == 10.0 ==> fs == 90.0
    ensures m == 15.0 ==> fs == 100.0
    ensures m != 5.0 && m != 10.0 && m != 15.0 ==> fs == 80.0 + m * 1.33
  {
    if m == 5.0 then 80.0
    else if m == 10.0 then 90.0
    else if m == 15.0 then 100.0
    else 80.0 + m * 1.33
  }

  /** The margin buttons offer 4, 8 and 16, so none of them reaches a fixed
      case of the switch: each gets the computed font size, which is not a
      multiple of the font-size step. */
  lemma MarginOptionsUseFormula(k: nat)
    requires k < |Margins|
    ensures MarginFontSize(Margins[k].value as real) == 80.0 + Margins[k].value as real * 1.33
    ensures MarginFontSize(Margins[k].value as real) in {85.32, 90.64, 101.28}
  {
  }

  // ---------------------------------------------------------------------
  // Font cycling

  /** `(currentIndex + 1) % n`; `currentIndex` is at least -1, so the
      dividend is never negative and JavaScript's `%` agrees with Dafny's. */
  function NextFontIndex(i: int, n: nat): (r: int)
    requires n > 0 && -1 <= i < n
    ensures 0 <= r < n
    ensures i < n - 1 ==> r == i + 1
    ensures i == n - 1 ==> r == 0
  {
    (i + 1) % n
  }

  /** `currentIndex === 0 ? n - 1 : currentIndex - 1`; an unknown font
      (index -1) gives -2, which is not a position. */
  function PrevFontIndex(i: int, n: nat): (r: int)
    requires n > 0 && -1 <= i < n
    ensures i == 0 ==> r == n - 1
    ensures i > 0 ==> r == i - 1
    ensures i == -1 ==> r == -2
  {
    if i == 0 then n - 1 else i - 1
  }

  /** The font `cycleFontNext` selects. */
  function NextFontId(id: string): (r: string)
    ensures exists k :: 0 <= k < |Fonts| && Fonts[k].id == r
    ensures 0 <= FontIndex(Fonts, id) < |Fonts| - 1 ==> r == Fonts[FontIndex(Fonts, id) + 1].id
    ensures FontIndex(Fonts, id) == |Fonts| - 1 ==> r == Fonts[0].id
  {
    Fonts[NextFontIndex(FontIndex(Fonts, id), |Fonts|)].id
  }

  /** The font `cycleFontPrev` selects; None where `fontFamily[-2].id` throws. */
  function PrevFontId(id: string): (r: Option<string>)
    ensures r.None? <==> FontIndex(Fonts, id) == -1
  {
    var p := PrevFontIndex(FontIndex(Fonts, id), |Fonts|);
    if 0 <= p < |Fonts| then Some(Fonts[p].id) else None
  }

  /** Stepping back after stepping forward restores a font that is in the table. */
  lemma PrevAfterNext(id: string)
    requires FontIndex(Fonts, id) >= 0
    ensures PrevFontId(NextFontId(id)) == Some(id)
  {
    var i := FontIndex(Fonts, id);
    var j := NextFontIndex(i, |Fonts|);
    TablesWellFormed();
    FontIndexOfId(Fonts, j);
    assert PrevFontIndex(j, |Fonts|) == i;
  }

  /** Stepping forward after stepping back restores a font that is in the table. */
  lemma NextAfterPrev(id: string)
    requires FontIndex(Fonts, id) >= 0
    ensures PrevFontId(id).Some? && NextFontId(PrevFontId(id).value) == id
  {
    var i := FontIndex(Fonts, id);
    var j := PrevFontIndex(i, |Fonts|);
    TablesWellFormed();
    FontIndexOfId(Fonts, j);
    assert NextFontIndex(j, |Fonts|) == i;
  }

  /** With an id the table does not hold, "next" selects the first font while
      "prev" fails. */
  lemma UnknownFontCycle(id: string)
    requires forall j :: 0 <= j < |Fonts| ==> Fonts[j].id != id
    ensures NextFontId(id) == Fonts[0].id
    ensures PrevFontId(id).None?
  {
  }

  // ---------------------------------------------------------------------
  // Applying preferences to the engine

  /** The theme the engine gets for `id`: its table entry, else the first theme. */
  function ResolveTheme(id: string): (t: Theme)
    ensures t in Themes
    ensures (exists j :: 0 <= j < |Themes| && Themes[j].id == id) ==> t.id == id
    ensures (forall j :: 0 <= j < |Themes| ==> Themes[j].id != id) ==> t == Themes[0]
  {
    match FindTheme(Themes, id)
    case Some(t) => t
    case None => Themes[0]
  }

  /** The font the engine gets for `id`: its table entry, else the first font. */
  function ResolveFont(id: string): (f: FontFamily)
    ensures f in Fonts
    ensures FontIndex(Fonts, id) >= 0 ==> f.id == id
    ensures FontIndex(Fonts, id) == -1 ==> f == Fonts[0]
  {
    match FindFont(Fonts, id)
    case Some(f) => f
    case None => Fonts[0]
  }

  /** The CSS overrides and body theme the effect hands to the engine. */
  datatype Applied = Applied(
    fontSize: real,
    fontFamily: string,
    lineHeight: real,
    margin: real,
    backgroundColor: string,
    color: string,
    bodyTheme: string)

  /** The overrides for a record: its sizes as they are, the colours and
      body theme of the theme it names and the stack of the font it names,
      each falling back to the first table entry for an unknown id. */
  function ApplyPreferences(p: Preferences): (a: Applied)
    ensures a.fontSize == p.fontSize && a.lineHeight == p.lineHeight && a.margin == p.margin
    ensures && a.backgroundColor == ResolveTheme(p.theme).backgroundColor
            && a.color == ResolveTheme(p.theme).color
            && a.bodyTheme == ResolveTheme(p.theme).bodyTheme
    ensures a.fontFamily == ResolveFont(p.fontFamily).value
  {
    var t := ResolveTheme(p.theme);
    var f := ResolveFont(p.fontFamily);
    Applied(p.fontSize, f.value, p.lineHeight, p.margin, t.backgroundColor, t.color, t.bodyTheme)
  }

  /** The applied colours are those of the theme the record names, or of
      the first theme for an id the table lacks. */
  lemma AppliedThemeIsNamedEntry(p: Preferences, i: nat)
    requires i < |Themes|
    ensures Themes[i].id == p.theme ==>
      && ApplyPreferences(p).backgroundColor == Themes[i].backgroundColor
      && ApplyPreferences(p).color == Themes[i].color
      && ApplyPreferences(p).bodyTheme == Themes[i].bodyTheme
    ensures (forall k :: 0 <= k < |Themes| ==> Themes[k].id != p.theme) ==>
      ApplyPreferences(p).backgroundColor == Themes[0].backgroundColor && ApplyPreferences(p).color == Themes[0].color
  {
    if Themes[i].id == p.theme {
      var t := ResolveTheme(p.theme);
      assert t.id == p.theme;
      var k :| 0 <= k < |Themes| && Themes[k] == t;
      TablesWellFormed();
      assert ThemeIdsUnique(Themes);
      assert k == i;
    }
  }

  /** The applied font stack is that of the font the record names, or of the
      first font for an id the table lacks. */
  lemma AppliedFontIsNamedEntry(p: Preferences, j: nat)
    requires j < |Fonts|
    ensures Fonts[j].id == p.fontFamily ==> ApplyPreferences(p).fontFamily == Fonts[j].value
    ensures FontIndex(Fonts, p.fontFamily) == -1 ==> ApplyPreferences(p).fontFamily == Fonts[0].value
  {
    if Fonts[j].id == p.fontFamily {
      TablesWellFormed();
      FontIndexOfId(Fonts, j);
      var f := ResolveFont(p.fontFamily);
      assert f.id == p.fontFamily;
      var k :| 0 <= k < |Fonts| && Fonts[k] == f;
      assert FontIdsUnique(Fonts);
      assert k == j;
    }
  }

  /** The panel's state: the preference record and what it last saved. */
  class PreferencePanel {
    var prefs: Preferences
    var saved: Option<Preferences>

    constructor ()
      ensures prefs == DefaultPreferences && saved == None
    {
      prefs := DefaultPreferences;
      saved := None;
    }

    /** The mount effect: replaces the record with the stored one, defaults filled in. */
    method Load(stored: Saved)
      modifies this`prefs
      ensures prefs == LoadedPreferences(stored)
    {
      prefs := LoadedPreferences(stored);
    }

    /** The effect that runs on each change while an engine is present: the
        overrides it applies, and the record it saves. */
    method Apply(hasRendition: bool) returns (applied: Option<Applied>)
      modifies this`saved
      ensures !hasRendition ==> applied == None && saved == old(saved)
      ensures hasRendition ==> applied == Some(ApplyPreferences(prefs)) && saved == Some(prefs)
    {
      if !hasRendition {
        return None;
      }
      applied := Some(ApplyPreferences(prefs));
      saved := Some(prefs);
    }

    method UpdateFontSize(fontSize: real)
      modifies this`prefs
      ensures prefs == old(prefs).(fontSize := fontSize)
    {
      prefs := prefs.(fontSize := fontSize);
    }

    method DecreaseFontSize()
      modifies this`prefs
      ensures prefs == old(prefs).(fontSize := FontSizeDown(old(prefs).fontSize))
    {
      UpdateFontSize(FontSizeDown(prefs.fontSize));
    }

    method IncreaseFontSize()
      modifies this`prefs
      ensures prefs == old(prefs).(fontSize := FontSizeUp(old(prefs).fontSize))
    {
      UpdateFontSize(FontSizeUp(prefs.fontSize));
    }

    method UpdateLineHeight(lineHeight: real)
      modifies this`prefs
      ensures prefs == old(prefs).(lineHeight := lineHeight)
    {
      prefs := prefs.(lineHeight := lineHeight);
    }

    /** Sets the margin and, with it, the font size the switch maps it to. */
    method UpdateMargin(margin: real)
      modifies this`prefs
      ensures prefs == old(prefs).(margin := margin, fontSize := MarginFontSize(margin))
    {
      prefs := prefs.(margin := margin, fontSize := MarginFontSize(margin));
    }

    /** `setTheme(theme = "reader-theme-light")`: a missing argument selects Light. */
    method SetTheme(theme: Option<string>)
      modifies this`prefs
      ensures prefs == old(prefs).(theme := OrElse(theme, DefaultThemeId))
    {
      prefs := prefs.(theme := OrElse(theme, DefaultThemeId));
    }

    method SetFont(fontFamily: string)
      modifies this`prefs
      ensures prefs == old(prefs).(fontFamily := fontFamily)
    {
      prefs := prefs.(fontFamily := fontFamily);
    }

    method CycleFontNext()
      modifies this`prefs
      ensures prefs == old(prefs).(fontFamily := NextFontId(old(prefs).fontFamily))
      ensures prefs.fontFamily in set f | f in Fonts :: f.id
    {
      var i := FontIndex(Fonts, prefs.fontFamily);
      SetFont(Fonts[NextFontIndex(i, |Fonts|)].id);
    }

    /** Fails, changing nothing, when the current font is not in the table
        (the handler throws on `fontFamily[-2].id`). */
    method CycleFontPrev() returns (ok: bool)
      modifies this`prefs
      ensures ok <==> FontIndex(Fonts, old(prefs).fontFamily) >= 0
      ensures ok ==> prefs == old(prefs).(fontFamily := PrevFontId(old(prefs).fontFamily).value)
      ensures !ok ==> prefs == old(prefs)
    {
      var i := FontIndex(Fonts, prefs.fontFamily);
      var p := PrevFontIndex(i, |Fonts|);
      if p < 0 {
        return false;
      }
      SetFont(Fonts[p].id);
      ok := true;
    }
  }
}
