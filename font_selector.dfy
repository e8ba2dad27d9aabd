/** The swipeable font picker (src/components/ui/FontSelector/FontSelector.jsx):
    a current category moved by horizontal swipes and category buttons, locked
    for the length of a transition, and the fonts listed under it. */
module FontSelector {
  import opened Common
  import opened ReaderTheme

  const Categories: seq<string> := ["serif", "sans-serif", "monospace"]

  /** Horizontal distance a swipe must exceed to change category. */
  const SwipeThreshold: real := 50.0

  /** `categories.indexOf(c)` */
  function CategoryIndex(c: string): (i: int)
    ensures -1 <= i < |Categories|
    ensures i >= 0 ==> Categories[i] == c
    ensures i == -1 <==> c !in Categories
  {
    if c == Categories[0] then 0
    else if c == Categories[1] then 1
    else if c == Categories[2] then 2
    else -1
  }

  function Abs(r: real): real { if r < 0.0 then -r else r }

  /** The category a swipe of `deltaX` leads to from `c`: right goes to the
      previous category, left to the next, and the ends do not wrap. */
  function SwipeCategory(c: string, deltaX: real): (r: string)
    requires c in Categories
    ensures r in Categories
    ensures Abs(deltaX) <= SwipeThreshold ==> r == c
    ensures deltaX > SwipeThreshold && CategoryIndex(c) > 0 ==> r == Categories[CategoryIndex(c) - 1]
    ensures deltaX < -SwipeThreshold && CategoryIndex(c) < |Categories| - 1 ==> r == Categories[CategoryIndex(c) + 1]
    ensures (deltaX > 0.0 && CategoryIndex(c) == 0) || (deltaX < 0.0 && CategoryIndex(c) == |Categories| - 1) ==> r == c
  {
    var i := CategoryIndex(c);
    if Abs(deltaX) <= SwipeThreshold then c
    else if deltaX > 0.0 && i > 0 then Categories[i - 1]
    else if deltaX < 0.0 && i < |Categories| - 1 then Categories[i + 1]
    else c
  }

  /** A long left swipe undoes a long right swipe that moved. */
  lemma SwipesAreInverse(c: string, d: real)
    requires c in Categories && d > SwipeThreshold && CategoryIndex(c) > 0
    ensures SwipeCategory(SwipeCategory(c, d), -d) == c
  {
  }

  /** `font.category`: the font table has no such field, so it is undefined
      for every entry. */
  function FontCategory(f: FontFamily): Option<string>
  {
    None
  }

  /** `getFontsByCategory` as written: the fonts whose category equals `c`. */
  function FontsByCategoryAsWritten(c: string): (fs: seq<FontFamily>)
    ensures forall f :: f in fs ==> f in Fonts && FontCategory(f) == Some(c)
  {
    FilterCategory(Fonts, c)
  }

  function FilterCategory(fonts: seq<FontFamily>, c: string): (fs: seq<FontFamily>)
    ensures forall f :: f in fs ==> f in fonts && FontCategory(f) == Some(c)
  {
    if fonts == [] then []
    else
      var f := fonts[0];
      (if FontCategory(f) == Some(c) then [f] else []) + FilterCategory(fonts[1..], c)
  }

  /** As written the picker lists no font under any category. */
  lemma NoFontInAnyCategory(c: string)
    ensures FontsByCategoryAsWritten(c) == []
  {
    NoFontMatches(Fonts, c);
  }

  lemma {:induction false} NoFontMatches(fonts: seq<FontFamily>, c: string)
    ensures FilterCategory(fonts, c) == []
  {
    if fonts != [] {
      NoFontMatches(fonts[1..], c);
    }
  }

  /** The generic family a font's CSS value ends with ("serif" in
      "'Times New Roman', serif"): the text after the last space. */
  function GenericFamily(value: string): (g: string)
    ensures |g| <= |value| && g == value[|value| - |g|..]
    ensures ' ' !in g
    decreases |value|
  {
    if value == [] || value[|value| - 1] == ' ' then []
    else GenericFamily(value[..|value| - 1]) + [value[|value| - 1]]
  }

  /** The listing the category buttons imply: the fonts whose generic family
      is `c`. */
  function FontsByCategory(c: string): (fs: seq<FontFamily>)
    ensures forall f :: f in fs <==> f in Fonts && GenericFamily(f.value) == c
  {
    FilterFamily(Fonts, c)
  }

  function FilterFamily(fonts: seq<FontFamily>, c: string): (fs: seq<FontFamily>)
    ensures forall f :: f in fs <==> f in fonts && GenericFamily(f.value) == c
  {
    if fonts == [] then []
    else (if GenericFamily(fonts[0].value) == c then [fonts[0]] else []) + FilterFamily(fonts[1..], c)
  }

  /** Every font of the table is listed under one of the picker's categories. */
  lemma EveryFontHasACategory(k: nat)
    requires k < |Fonts|
    ensures GenericFamily(Fonts[k].value) in Categories
    ensures Fonts[k] in FontsByCategory(GenericFamily(Fonts[k].value))
  {
    var v := Fonts[k].value;
    var g := FamilyOfFont(k);
    assert GenericFamily(v) == g;
    assert g == Categories[0] || g == Categories[1];
  }

  /** The generic family of the font at `k`, read off its CSS value. */
  lemma FamilyOfFont(k: nat) returns (g: string)
    requires k < |Fonts|
    ensures GenericFamily(Fonts[k].value) == g
    ensures g == "serif" || g == "sans-serif"
  {
    var prefix;
    if k == 0 {
      prefix, g := "'Arial',", "sans-serif";
    } else if k == 1 {
      prefix, g := "'Times New Roman',", "serif";
    } else if k == 2 {
      prefix, g := "'Roboto',", "sans-serif";
    } else if k == 3 {
      prefix, g := "'Baskerville',", "serif";
    } else if k == 4 {
      prefix, g := "'Bookerly',", "serif";
    } else {
      prefix, g := "'Cecilia',", "serif";
    }
    assert Fonts[k].value == prefix + " " + g;
    GenericFamilyAfterSpace(prefix, g);
  }

  /** A font stack ending in " " + g, g without spaces, has generic family g. */
  lemma {:induction false} GenericFamilyAfterSpace(prefix: string, g: string)
    requires ' ' !in g
    ensures GenericFamily(prefix + " " + g) == g
    decreases |g|
  {
    var v := prefix + " " + g;
    if g == [] {
      assert v[|v| - 1] == ' ';
    } else {
      var h := g[..|g| - 1];
      assert v[..|v| - 1] == prefix + " " + h;
      GenericFamilyAfterSpace(prefix, h);
      assert g == h + [g[|g| - 1]];
    }
  }

  /** The picker's state. `touchStartX` is None before a touch (and after
      one ends); a start at x = 0 is falsy in the source and treated alike. */
  class Picker {
    var currentCategory: string
    var touchStartX: Option<real>
    var isTransitioning: bool

    predicate Valid()
      reads this
    {
      currentCategory in Categories
    }

    constructor ()
      ensures Valid()
      ensures currentCategory == "serif" && touchStartX == None && !isTransitioning
    {
      currentCategory := "serif";
      touchStartX := None;
      isTransitioning := false;
    }

    /** `touchStartX` as the handlers test it: null and 0 are both falsy. */
    function Started(): bool
      reads this
    {
      touchStartX.Some? && touchStartX.value != 0.0
    }

    method TouchStart(clientX: real)
      modifies this`touchStartX
      ensures touchStartX == Some(clientX)
    {
      touchStartX := Some(clientX);
    }

    /** Whether the move's default scrolling is suppressed. */
    method TouchMove() returns (preventDefault: bool)
      ensures preventDefault <==> Started()
    {
      preventDefault := Started();
    }

    /** Ends a touch: a horizontal travel over the threshold starts a
        transition (and moves one category where there is one); the start
        point is then cleared.  Ignored, start point included, when no touch
        started or a transition is running. */
    method TouchEnd(clientX: real)
      requires Valid()
      modifies this
      ensures Valid()
      ensures !old(Started()) || old(isTransitioning) ==>
        currentCategory == old(currentCategory) && touchStartX == old(touchStartX) && isTransitioning == old(isTransitioning)
      ensures old(Started()) && !old(isTransitioning) ==>
        && touchStartX == None
        && currentCategory == SwipeCategory(old(currentCategory), clientX - old(touchStartX).value)
        && (isTransitioning <==> Abs(clientX - old(touchStartX).value) > SwipeThreshold)
    {
      if !Started() || isTransitioning {
        return;
      }
      var deltaX := clientX - touchStartX.value;
      if Abs(deltaX) > SwipeThreshold {
        isTransitioning := true;
        currentCategory := SwipeCategory(currentCategory, deltaX);
      }
      touchStartX := None;
    }

    /** The 300 ms timer that ends a transition. */
    method TransitionEnded()
      modifies this`isTransitioning
      ensures !isTransitioning
    {
      isTransitioning := false;
    }

    /** A category button: ignored during a transition. */
    method SelectCategory(c: string)
      requires Valid() && c in Categories
      modifies this`currentCategory
      ensures Valid()
      ensures currentCategory == (if old(isTransitioning) then old(currentCategory) else c)
    {
      if !isTransitioning {
        currentCategory := c;
      }
    }
  }
}
