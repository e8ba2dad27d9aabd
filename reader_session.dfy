/** The reader page's session rules (src/pages/ReaderMobile.jsx) other than
    the swipe recogniser: launch parameters and the book address, the
    keyboard, the bookmark test and the bookmark, last-read and location
    entries it keeps in the browser's storage, the slider's seek guard, the
    progress percent and the side panels.  The rendering engine is replaced by
    its answers (the current location, the generated location list), the
    server by a `Response`, and storage by a map. */
module ReaderSession {
  import opened Common
  import opened JsonText
  import opened Swipe
  import UserReducer

  // ---------------------------------------------------------------------
  // Launch parameters

  /** `searchParams.get(name)`: None where the parameter is absent. */
  function Param(params: map<string, string>, name: string): Option<string>
  {
    if name in params then Some(params[name]) else None
  }

  /** A present, non-empty parameter (a truthy `get` result). */
  predicate Filled(params: map<string, string>, name: string)
  {
    name in params && params[name] != ""
  }

  /** The parameters the page cannot open without: preview copy, title, book
      id, book address and owner wallet. */
  const RequiredParams: set<string> := {"bkpw", "bkte", "bkid", "bkas", "oras"}

  /** Every required parameter is given. */
  predicate HasRequired(params: map<string, string>): (b: bool)
    ensures b <==> forall name :: name in RequiredParams ==> Filled(params, name)
  {
    Filled(params, "bkpw") && Filled(params, "bkte") && Filled(params, "bkid")
    && Filled(params, "bkas") && Filled(params, "oras")
  }

  /** The book's download address, built only from a present base, token,
      content id and file name. */
  function BookUrl(params: map<string, string>): (u: Option<string>)
    ensures u.Some? <==> Filled(params, "be") && Filled(params, "tn") && Filled(params, "cd") && Filled(params, "fe")
    ensures u.Some? ==> |u.value| > |params["be"]|
  {
    if Filled(params, "be") && Filled(params, "tn") && Filled(params, "cd") && Filled(params, "fe") then
      Some(params["be"] + "?token=" + params["tn"] + "&cid=" + params["cd"] + "&fileName=" + params["fe"])
    else None
  }

  /** `s.split(c)[0]` of a text that has `c` right after `a` is `a`. */
  lemma {:induction false} BeforeFirstOfJoin(a: string, c: char, rest: string)
    requires c !in a
    ensures BeforeFirst(a + [c] + rest, c) == a
  {
    if a == [] {
      assert (a + [c] + rest)[0] == c;
    } else {
      assert (a + [c] + rest)[1..] == a[1..] + [c] + rest;
      BeforeFirstOfJoin(a[1..], c, rest);
    }
  }

  /** The base address is recovered from the book address as the text before
      its first `?` whenever it has none of its own. */
  lemma BookUrlKeepsBase(params: map<string, string>)
    requires BookUrl(params).Some? && '?' !in params["be"]
    ensures BeforeFirst(BookUrl(params).value, '?') == params["be"]
  {
    var rest := "token=" + params["tn"] + "&cid=" + params["cd"] + "&fileName=" + params["fe"];
    assert BookUrl(params).value == params["be"] + ['?'] + rest;
    BeforeFirstOfJoin(params["be"], '?', rest);
  }

  /** What the parameter effect leaves the page with: the error screen, an
      effect that threw in the SET_USER dispatch before marking the page ready
      (neither ready nor errored), or a ready page.  `user*` are the `urid`,
      `urwt` and `urtn` values passed on to SET_USER. */
  datatype Launch =
    | Errored
    | Aborted
    | Ready(preview: bool, bookUrl: Option<string>, bookId: string, title: string,
            bookPreview: string, bookAddress: string, walletAddress: string,
            userId: Option<string>, userWallet: Option<string>, userToken: string)

  /** The SET_USER data the effect dispatches for a present `urtn`. */
  function SetUserData(params: map<string, string>): (d: UserReducer.SetUserData)
    requires "urtn" in params
    ensures d.acsTkn == params["urtn"]
    ensures d.uid == Param(params, "urid") && d.wallet == Param(params, "urwt")
  {
    UserReducer.SetUserData(Param(params, "urid"), Param(params, "urwt"), params["urtn"])
  }

  /** The parameter effect, with `decodeExp` the token decoder the reducer
      uses.  `isUsable(preview)` holds for either boolean, so it adds nothing
      to the five filled parameters.  An absent `urtn` reaches the decoder as
      null, which it rejects. */
  function LaunchFrom(params: map<string, string>, decodeExp: string -> Option<int>): (r: Launch)
    ensures r.Errored? <==> !HasRequired(params) || (Param(params, "pw") == Some("false") && BookUrl(params).None?)
    ensures r.Aborted? <==> !r.Errored? && ("urtn" !in params || decodeExp(params["urtn"]).None?)
    ensures r.Ready? <==>
      && HasRequired(params) && (Param(params, "pw") == Some("false") ==> BookUrl(params).Some?)
      && "urtn" in params && decodeExp(params["urtn"]).Some?
    ensures r.Ready? ==>
      && r.preview == (Param(params, "pw") != Some("false"))
      && (!r.preview ==> r.bookUrl.Some?)
      && r.bookUrl == BookUrl(params)
      && r.bookId == params["bkid"] && r.bookId != ""
      && r.walletAddress == params["oras"] && r.walletAddress != ""
      && r.bookAddress == params["bkas"] && r.title == params["bkte"] && r.bookPreview == params["bkpw"]
      && r.userId == Param(params, "urid") && r.userWallet == Param(params, "urwt")
      && r.userToken == params["urtn"]
  {
    if HasRequired(params) then
      var preview := Param(params, "pw") != Some("false");
      if !preview && BookUrl(params).None? then Errored
      else if "urtn" !in params || decodeExp(params["urtn"]).None? then Aborted
      else
        Ready(preview, BookUrl(params), params["bkid"], params["bkte"], params["bkpw"],
              params["bkas"], params["oras"],
              Param(params, "urid"), Param(params, "urwt"), params["urtn"])
    else Errored
  }

  /** With a token present, the launch aborts exactly when the reducer throws
      on the SET_USER it dispatches, whatever the store holds; when it is
      ready, the store then holds the launch's user. */
  lemma LaunchAbortsWhenSetUserThrows(params: map<string, string>, decodeExp: string -> Option<int>,
                                      store: Option<UserReducer.State>)
    requires "urtn" in params && !LaunchFrom(params, decodeExp).Errored?
    ensures var o := UserReducer.Reduce(store, UserReducer.SetUser(SetUserData(params)), decodeExp);
      && (LaunchFrom(params, decodeExp).Aborted? <==> o.Threw?)
      && (LaunchFrom(params, decodeExp).Ready? ==>
            && o.state.userState.uid == LaunchFrom(params, decodeExp).userId
            && o.state.userState.wallet == LaunchFrom(params, decodeExp).userWallet
            && o.state.userState.acsTkn.value.tkn == LaunchFrom(params, decodeExp).userToken)
  {
  }

  // ---------------------------------------------------------------------
  // Keyboard

  /** `e.keyCode || e.which`, with an absent code as 0. */
  function KeyCode(keyCode: int, which: int): (c: int)
    ensures keyCode != 0 ==> c == keyCode
    ensures keyCode == 0 ==> c == which
    ensures c == 0 <==> keyCode == 0 && which == 0
  {
    if keyCode != 0 then keyCode else which
  }

  /** The `navigatePage` calls of `handleKeyUp`, in order: two independent
      tests, left before right. */
  function KeyNavigation(key: string, keyCode: int, which: int): (names: seq<string>)
    ensures "prev" in names <==> key == "ArrowLeft" || KeyCode(keyCode, which) == 37
    ensures "next" in names <==> key == "ArrowRight" || KeyCode(keyCode, which) == 39
    ensures forall n :: n in names ==> n == "prev" || n == "next"
    ensures |names| == 2 ==> names == ["prev", "next"]
  {
    (if key == "ArrowLeft" || KeyCode(keyCode, which) == 37 then ["prev"] else [])
    + (if key == "ArrowRight" || KeyCode(keyCode, which) == 39 then ["next"] else [])
  }

  /** `navigatePage(direction)`: the page turn asked of the engine. */
  function NavigatePage(hasRendition: bool, direction: string): (d: Option<Direction>)
    ensures !hasRendition ==> d.None?
    ensures d == Some(Next) <==> hasRendition && direction == "next"
    ensures d == Some(Prev) <==> hasRendition && direction == "prev"
  {
    if !hasRendition then None
    else if direction == "next" then Some(Next)
    else if direction == "prev" then Some(Prev)
    else None
  }

  /** The page turns a list of `navigatePage` calls asks for. */
  function Turns(hasRendition: bool, names: seq<string>): (ds: seq<Direction>)
    ensures |ds| <= |names|
    ensures !hasRendition ==> ds == []
  {
    if names == [] then []
    else
      var first := NavigatePage(hasRendition, names[0]);
      (if first.Some? then [first.value] else []) + Turns(hasRendition, names[1..])
  }

  /** An arrow key (by name or by code) turns one page that way; any other
      key turns none. */
  lemma KeyUpTurns(key: string, keyCode: int, which: int)
    ensures var code := KeyCode(keyCode, which);
      && (key == "ArrowLeft" && code != 39 ==> Turns(true, KeyNavigation(key, keyCode, which)) == [Prev])
      && (key == "ArrowRight" && code != 37 ==> Turns(true, KeyNavigation(key, keyCode, which)) == [Next])
      && (key != "ArrowLeft" && key != "ArrowRight" && code != 37 && code != 39 ==>
            Turns(true, KeyNavigation(key, keyCode, which)) == [])
  {
    var code := KeyCode(keyCode, which);
    var names := KeyNavigation(key, keyCode, which);
    if key == "ArrowLeft" && code != 39 {
      assert names == ["prev"];
    } else if key == "ArrowRight" && code != 37 {
      assert names == ["next"];
    }
  }

  // ---------------------------------------------------------------------
  // Storage keys

  /** The key of a book's bookmark list. */
  function BookmarksKey(bookId: string): (k: string)
    ensures |k| == |bookId| + 10 && k[..|bookId|] == bookId && k[|bookId|..] == ":bookmarks"
  {
    bookId + ":bookmarks"
  }

  /** The key of a book's last-read position. */
  function LastReadKey(bookId: string): (k: string)
    ensures |k| == |bookId| + 9 && k[..|bookId|] == bookId && k[|bookId|..] == ":lastread"
  {
    bookId + ":lastread"
  }

  /** The key of a book's generated locations. */
  function LocationsKey(bookId: string): (k: string)
    ensures |k| == |bookId| + 10 && k[..|bookId|] == bookId && k[|bookId|..] == ":locations"
  {
    bookId + ":locations"
  }

  /** The three entries of one book never share a key, and different books
      never share a bookmark entry. */
  lemma KeysDistinct(a: string, b: string)
    ensures BookmarksKey(a) != LastReadKey(a)
    ensures BookmarksKey(a) != LocationsKey(a)
    ensures LastReadKey(a) != LocationsKey(a)
    ensures BookmarksKey(a) == BookmarksKey(b) ==> a == b
  {
    assert BookmarksKey(a)[|a| + 1] == 'b';
    assert LocationsKey(a)[|a| + 1] == 'l';
    if BookmarksKey(a) == BookmarksKey(b) {
      assert a == BookmarksKey(a)[..|a|];
      assert b == BookmarksKey(b)[..|b|];
    }
  }

  // ---------------------------------------------------------------------
  // The bookmark test

  /** The same page: identical CFIs, or CFIs that agree before the first `!`
      (the same spine item). */
  predicate CfiMatches(stored: string, current: string): (b: bool)
    ensures b <==> BeforeFirst(stored, '!') == BeforeFirst(current, '!')
  {
    stored == current || BeforeFirst(stored, '!') == BeforeFirst(current, '!')
  }

  /** The test does not depend on which CFI is the stored one. */
  lemma CfiMatchesSymmetric(stored: string, current: string)
    ensures CfiMatches(stored, current) <==> CfiMatches(current, stored)
  {
  }

  /** Any two positions inside one spine item match. */
  lemma SameSpineItemMatches(item: string, x: string, y: string)
    requires '!' !in item
    ensures CfiMatches(item + "!" + x, item + "!" + y)
  {
    assert item + "!" + x == item + ['!'] + x;
    assert item + "!" + y == item + ['!'] + y;
    BeforeFirstOfJoin(item, '!', x);
    BeforeFirstOfJoin(item, '!', y);
  }

  /** The bookmark stored for a book: nothing under the key, an empty text, a
      text that is not a bookmark record, or a record without a CFI all count
      as none. */
  function StoredBookmark(storage: map<string, string>, bookId: string): (b: Option<Bookmark>)
    ensures BookmarksKey(bookId) !in storage ==> b.None?
    ensures BookmarksKey(bookId) in storage && storage[BookmarksKey(bookId)] == "" ==> b.None?
    ensures b.Some? ==> b.value.cfi != "" && DecodeBookmark(storage[BookmarksKey(bookId)]) == b
    ensures var key := BookmarksKey(bookId);
      key in storage && storage[key] != "" && DecodeBookmark(storage[key]).Some? && DecodeBookmark(storage[key]).value.cfi != "" ==>
        b == DecodeBookmark(storage[key])
  {
    var key := BookmarksKey(bookId);
    if key !in storage || storage[key] == "" then None
    else
      match DecodeBookmark(storage[key])
      case None => None
      case Some(m) => if m.cfi == "" then None else Some(m)
  }

  /** `isCurrentPageBookmarked()`, with `current` the CFI of the engine's
      current location (None where it has none). */
  function IsBookmarked(hasRendition: bool, bookId: string, storage: map<string, string>, current: Option<string>): (r: bool)
    ensures r <==>
      && hasRendition && bookId != "" && current.Some?
      && StoredBookmark(storage, bookId).Some?
      && CfiMatches(StoredBookmark(storage, bookId).value.cfi, current.value)
  {
    if !hasRendition || bookId == "" then false
    else
      match StoredBookmark(storage, bookId)
      case None => false
      case Some(m) => current.Some? && CfiMatches(m.cfi, current.value)
  }

  /** After the add write the page it was made on is bookmarked, and so is
      every other page of the same spine item. */
  lemma AddedBookmarkIsFound(storage: map<string, string>, bookId: string, b: Bookmark)
    requires bookId != "" && b.cfi != ""
    ensures StoredBookmark(storage[BookmarksKey(bookId) := EncodeBookmark(b)], bookId) == Some(b)
    ensures IsBookmarked(true, bookId, storage[BookmarksKey(bookId) := EncodeBookmark(b)], Some(b.cfi))
  {
    var key := BookmarksKey(bookId);
    assert EncodeBookmark(b)[0] == '{';
    BookmarkRoundTrip(b);
  }

  /** After the remove write no page of the book is bookmarked; in
      particular an add followed by a remove leaves none. */
  lemma RemovedBookmarkIsGone(storage: map<string, string>, bookId: string, b: Bookmark, current: Option<string>)
    ensures !IsBookmarked(true, bookId, storage[BookmarksKey(bookId) := ""], current)
    ensures !IsBookmarked(true, bookId, storage[BookmarksKey(bookId) := EncodeBookmark(b)][BookmarksKey(bookId) := ""], current)
  {
  }

  // ---------------------------------------------------------------------
  // Last read page and cached locations

  /** `saveLastReadPage(cfi)`: only with storage, a book id and a non-empty CFI. */
  function SaveLastRead(storage: map<string, string>, storageAvailable: bool, bookId: string, cfi: Option<string>): (s: map<string, string>)
    ensures s.Keys <= storage.Keys + {LastReadKey(bookId)}
    ensures forall k :: k in storage && k != LastReadKey(bookId) ==> k in s && s[k] == storage[k]
    ensures !storageAvailable || bookId == "" || cfi.None? || cfi == Some("") ==> s == storage
  {
    if storageAvailable && bookId != "" && cfi.Some? && cfi.value != "" then storage[LastReadKey(bookId) := cfi.value]
    else storage
  }

  /** The page `loadLastReadPage` displays: whatever is stored (even empty). */
  function LastReadTarget(storage: map<string, string>, bookId: string): (t: Option<string>)
    ensures t.Some? <==> LastReadKey(bookId) in storage
    ensures t.Some? ==> t.value == storage[LastReadKey(bookId)]
  {
    if LastReadKey(bookId) in storage then Some(storage[LastReadKey(bookId)]) else None
  }

  /** The page saved on relocation is the page the next load displays, and
      saving it never disturbs the book's bookmark. */
  lemma LastReadRoundTrip(storage: map<string, string>, bookId: string, cfi: string)
    requires bookId != "" && cfi != ""
    ensures LastReadTarget(SaveLastRead(storage, true, bookId, Some(cfi)), bookId) == Some(cfi)
    ensures StoredBookmark(SaveLastRead(storage, true, bookId, Some(cfi)), bookId) == StoredBookmark(storage, bookId)
  {
    KeysDistinct(bookId, bookId);
  }

  /** The location count read from the cache: None where nothing usable is
      cached and the list must be generated; a cached text that does not
      parse throws, which is `Some(None)`. */
  function CachedLocations(storage: map<string, string>, bookId: string): (c: Option<Option<nat>>)
    ensures c.None? <==> LocationsKey(bookId) !in storage || storage[LocationsKey(bookId)] == ""
    ensures c.Some? && c.value.Some? ==>
      DecodeStrings(storage[LocationsKey(bookId)]).Some? && c.value.value == |DecodeStrings(storage[LocationsKey(bookId)]).value|
    ensures var key := LocationsKey(bookId);
      key in storage && storage[key] != "" ==>
        c == Some(if DecodeStrings(storage[key]).Some? then Some(|DecodeStrings(storage[key]).value|) else None)
  {
    var key := LocationsKey(bookId);
    if key !in storage || storage[key] == "" then None
    else
      match DecodeStrings(storage[key])
      case None => Some(None)
      case Some(l) => Some(Some(|l|))
  }

  /** Once a generated list is cached, every later visit reads back its length. */
  lemma GeneratedLocationsAreCached(storage: map<string, string>, bookId: string, generated: seq<string>)
    ensures CachedLocations(storage[LocationsKey(bookId) := EncodeStrings(generated)], bookId) == Some(Some(|generated|))
  {
    assert EncodeStrings(generated)[0] == '[';
    StringsRoundTrip(generated);
  }

  // ---------------------------------------------------------------------
  // Progress

  /** The slider's maximum, `TotalLocations || 100`. */
  function SliderMax(total: nat): (m: nat)
    ensures m > 0
    ensures total > 0 ==> m == total
  {
    if total == 0 then 100 else total
  }

  /** The percent shown as written:
      `Math.floor(progress * 100 / (TotalLocations || 1)) || "0"`. */
  function PercentAsWritten(progress: nat, total: nat): (p: nat)
    ensures total == 0 ==> p == 100 * progress
    ensures total > 0 ==> p == Percent(progress, total)
  {
    progress * 100 / (if total == 0 then 1 else total)
  }

  /** The percent of the slider's own range. */
  function Percent(progress: nat, total: nat): (p: nat)
    ensures progress <= SliderMax(total) ==> p <= 100
    ensures progress == SliderMax(total) ==> p == 100
  {
    PercentBound(progress, SliderMax(total));
    progress * 100 / SliderMax(total)
  }

  lemma PercentBound(progress: nat, m: nat)
    requires m > 0
    ensures progress <= m ==> progress * 100 / m <= 100
    ensures progress == m ==> progress * 100 / m == 100
  {
    if progress <= m {
      MulMonotone(100, progress, m);
      DivMonotone(100 * progress, 100 * m, m);
      MulDivCancel(100, m);
      assert progress * 100 == 100 * progress && m * 100 == 100 * m;
    }
  }

  lemma MulDivCancel(k: nat, m: nat)
    requires m > 0
    ensures k * m / m == k && m * k / m == k
  {
    var q, r := m * k / m, m * k % m;
    assert m * k == m * q + r && 0 <= r < m;
    assert m * (k - q) == r;
    MulSign(m, k - q);
    assert k * m == m * k;
  }

  lemma MulSign(m: int, d: int)
    requires m > 0
    ensures d >= 1 ==> m * d >= m
    ensures d <= -1 ==> m * d <= -m
  {
    assert m * d - m == m * (d - 1) && m * d + m == m * (d + 1);
  }

  lemma DivMonotone(a: nat, b: nat, m: nat)
    requires m > 0 && a <= b
    ensures a / m <= b / m
  {
    var qa, qb := a / m, b / m;
    if qa > qb {
      MulMonotone(m, qb + 1, qa);
      assert false;
    }
  }

  lemma MulMonotone(m: nat, x: nat, y: nat)
    requires x <= y
    ensures m * x <= m * y
  {
    assert m * y - m * x == m * (y - x);
  }

  /** Once the location count is known both agree; before it is (a count of
      0) the written formula divides by 1 while the slider runs to 100, so a
      position of 50 shows as 5000%. */
  lemma PercentBeforeLocationsAreCounted(progress: nat, total: nat)
    ensures total > 0 ==> PercentAsWritten(progress, total) == Percent(progress, total)
    ensures PercentAsWritten(50, 0) == 5000 && Percent(50, 0) == 50
  {
  }

  // ---------------------------------------------------------------------
  // Side panels

  datatype Panel = TocPanel | AnnotationPanel | CustomizerPanel | TtsPlayer

  /** `hideAllPanel` with every flag but `keep` (if any) set. */
  function HideAllPanel(open: set<Panel>, keep: Option<Panel>): (r: set<Panel>)
    ensures r <= open
    ensures forall p :: p in open && keep != Some(p) ==> p !in r
    ensures keep.Some? && keep.value in open ==> keep.value in r
  {
    if keep.Some? && keep.value in open then {keep.value} else {}
  }

  /** A panel button: hide the others, then flip this one. */
  function TogglePanel(open: set<Panel>, p: Panel): (r: set<Panel>)
    ensures p in r <==> p !in open
    ensures r == {} || r == {p}
  {
    var others := HideAllPanel(open, Some(p));
    if p in others then others - {p} else others + {p}
  }

  /** Whether the page writes the bookmark entry: always in preview mode;
      remotely in the `.then` branch on status 200, and in the `.catch`
      branch whenever the request is rejected. */
  predicate BookmarkWrites(preview: bool, response: Response)
  {
    preview || response == Status(200) || !Resolved(response)
  }

  /** A remote bookmark write is skipped exactly for a 2xx reply other than
      200: every other status and a missing reply write the entry. */
  lemma RemoteWriteSkippedOnlyForOther2xx(response: Response)
    ensures !BookmarkWrites(false, response) <==>
      response.Status? && 200 < response.code < 300
  {
  }

  /** The engine's view of the relocated position: its location number and
      CFI, either of which may be missing. */
  datatype Start = Start(location: Option<nat>, cfi: Option<string>)

  /** The page's state.  `hasRendition` turns on once the engine has
      rendered the book; `seekRequests` and `displayRequests` are the
      positions and CFIs the page asked the engine to show. */
  class ReaderPage {
    const isReady: bool
    const isErrored: bool
    const preview: bool
    const bookId: string
    const storageAvailable: bool
    var storage: map<string, string>
    var hasRendition: bool
    var pageBookmarked: bool
    var progress: nat
    var debouncedProgress: nat
    var seeking: bool
    var seekRequests: seq<nat>
    var displayRequests: seq<string>
    var totalLocations: nat
    var currentCfi: string
    var showContextMenu: bool
    var showUI: bool
    var openPanels: set<Panel>

    /** At most one side panel is open. */
    predicate Valid()
      reads this
    {
      |openPanels| <= 1
    }

    /** The page after the parameter effect. */
    constructor (params: map<string, string>, decodeExp: string -> Option<int>,
                 storage: map<string, string>, storageAvailable: bool)
      ensures Valid()
      ensures isReady == LaunchFrom(params, decodeExp).Ready?
      ensures isErrored == LaunchFrom(params, decodeExp).Errored?
      ensures isReady ==> preview == LaunchFrom(params, decodeExp).preview && bookId == LaunchFrom(params, decodeExp).bookId
      ensures !isReady ==> !preview && bookId == ""
      ensures this.storage == storage && this.storageAvailable == storageAvailable
      ensures !hasRendition && !pageBookmarked && progress == 0 && debouncedProgress == 0 && !seeking
      ensures seekRequests == [] && displayRequests == [] && totalLocations == 0 && currentCfi == ""
      ensures !showContextMenu && showUI && openPanels == {}
    {
      var launch := LaunchFrom(params, decodeExp);
      isReady := launch.Ready?;
      isErrored := launch.Errored?;
      preview := launch.Ready? && launch.preview;
      bookId := if launch.Ready? then launch.bookId else "";
      this.storage := storage;
      this.storageAvailable := storageAvailable;
      hasRendition := false;
      pageBookmarked := false;
      progress := 0;
      debouncedProgress := 0;
      seeking := false;
      seekRequests := [];
      displayRequests := [];
      totalLocations := 0;
      currentCfi := "";
      showContextMenu := false;
      showUI := true;
      openPanels := {};
    }

    /** Book metadata and the wallet are set (by the parameter effect), the
        engine exists and the book has an id. */
    predicate CanBookmark()
      reads this
    {
      isReady && hasRendition && bookId != ""
    }

    /** `addBookMark` at location `start` (None where the engine has no
        current location). */
    method AddBookMark(start: Option<Bookmark>, response: Response)
      modifies this`storage, this`pageBookmarked
      ensures !old(CanBookmark()) || start.None? || !BookmarkWrites(preview, response) ==>
        storage == old(storage) && pageBookmarked == old(pageBookmarked)
      ensures old(CanBookmark()) && start.Some? && BookmarkWrites(preview, response) ==>
        && storage == old(storage)[BookmarksKey(bookId) := EncodeBookmark(start.value)]
        && pageBookmarked == IsBookmarked(hasRendition, bookId, storage, Some(start.value.cfi))
        && (start.value.cfi != "" ==> pageBookmarked && StoredBookmark(storage, bookId) == start)
    {
      if !CanBookmark() || start.None? || !BookmarkWrites(preview, response) {
        return;
      }
      if start.value.cfi != "" {
        AddedBookmarkIsFound(storage, bookId, start.value);
      }
      storage := storage[BookmarksKey(bookId) := EncodeBookmark(start.value)];
      pageBookmarked := IsBookmarked(hasRendition, bookId, storage, Some(start.value.cfi));
    }

    /** `removeBookMark`, with `current` the CFI of the current location. */
    method RemoveBookMark(current: Option<string>, response: Response)
      modifies this`storage, this`pageBookmarked
      ensures !old(CanBookmark()) || !BookmarkWrites(preview, response) ==>
        storage == old(storage) && pageBookmarked == old(pageBookmarked)
      ensures old(CanBookmark()) && BookmarkWrites(preview, response) ==>
        storage == old(storage)[BookmarksKey(bookId) := ""] && !pageBookmarked
        && StoredBookmark(storage, bookId).None?
    {
      if !CanBookmark() || !BookmarkWrites(preview, response) {
        return;
      }
      storage := storage[BookmarksKey(bookId) := ""];
      pageBookmarked := IsBookmarked(hasRendition, bookId, storage, current);
    }

    /** `toggleBookMark`: remove where the current page is bookmarked, else add.
        When the write happens the page's status flips. */
    method ToggleBookMark(start: Option<Bookmark>, response: Response)
      modifies this`storage, this`pageBookmarked
      ensures var current := if start.Some? then Some(start.value.cfi) else None;
        var was := old(IsBookmarked(hasRendition, bookId, storage, current));
        var writes := old(CanBookmark()) && BookmarkWrites(preview, response);
        && (writes && was ==> storage == old(storage)[BookmarksKey(bookId) := ""] && !pageBookmarked)
        && (writes && !was && start.Some? ==>
              storage == old(storage)[BookmarksKey(bookId) := EncodeBookmark(start.value)])
        && (writes && start.Some? && start.value.cfi != "" ==> pageBookmarked == !was)
        && (!writes || (!was && start.None?) ==> storage == old(storage) && pageBookmarked == old(pageBookmarked))
    {
      var current := if start.Some? then Some(start.value.cfi) else None;
      if IsBookmarked(hasRendition, bookId, storage, current) {
        RemoveBookMark(current, response);
      } else {
        AddBookMark(start, response);
      }
    }

    /** `handlePageUpdate`: a slider input marks the move as a seek. */
    method HandlePageUpdate(value: Option<nat>)
      modifies this`seeking, this`progress
      ensures value.None? ==> seeking == old(seeking) && progress == old(progress)
      ensures value.Some? ==> seeking && progress == value.value
    {
      if value.Some? {
        seeking := true;
        progress := value.value;
      }
    }

    /** `handleRelocated` (registered once the page is ready and the engine
        exists): hides the context menu, refreshes the bookmark status,
        follows the engine's position without marking a seek, and saves the
        page as last read. */
    method HandleRelocated(start: Option<Start>)
      modifies this`showContextMenu, this`pageBookmarked, this`progress, this`storage, this`currentCfi
      ensures !(isReady && hasRendition) || start.None? ==>
        && showContextMenu == old(showContextMenu) && pageBookmarked == old(pageBookmarked)
        && progress == old(progress) && storage == old(storage) && currentCfi == old(currentCfi)
      ensures isReady && hasRendition && start.Some? ==>
        && !showContextMenu
        && pageBookmarked == IsBookmarked(hasRendition, bookId, old(storage), start.value.cfi)
        && progress == (if start.value.location.Some? then start.value.location.value else old(progress))
        && storage == SaveLastRead(old(storage), storageAvailable, bookId, start.value.cfi)
        && currentCfi == (if start.value.cfi.Some? && start.value.cfi.value != "" then start.value.cfi.value else old(currentCfi))
    {
      if !(isReady && hasRendition) || start.None? {
        return;
      }
      var s := start.value;
      showContextMenu := false;
      pageBookmarked := IsBookmarked(hasRendition, bookId, storage, s.cfi);
      if s.location.Some? {
        progress := s.location.value;
      }
      if s.cfi.Some? && s.cfi.value != "" {
        storage := SaveLastRead(storage, storageAvailable, bookId, s.cfi);
        currentCfi := s.cfi.value;
      }
    }

    /** The debounced position catches up with `progress` and the seek
        effect runs: it asks the engine for the position only when the move
        was a seek, and the seek flag is cleared whenever it ran. */
    method DebounceSettled()
      modifies this`debouncedProgress, this`seeking, this`seekRequests
      ensures debouncedProgress == progress
      ensures old(debouncedProgress) == progress || !(isReady && hasRendition && old(seeking)) ==>
        seeking == old(seeking) && seekRequests == old(seekRequests)
      ensures old(debouncedProgress) != progress && isReady && hasRendition && old(seeking) ==>
        !seeking && seekRequests == old(seekRequests) + [progress]
    {
      if debouncedProgress == progress {
        return;
      }
      debouncedProgress := progress;
      if isReady && hasRendition && seeking {
        seekRequests := seekRequests + [debouncedProgress];
        seeking := false;
      }
    }

    /** The engine finished rendering; the seek effect, which depends on it,
        runs once more. */
    method RenditionReady()
      requires !hasRendition
      modifies this`hasRendition, this`seeking, this`seekRequests
      ensures hasRendition
      ensures isReady && old(seeking) ==> !seeking && seekRequests == old(seekRequests) + [debouncedProgress]
      ensures !(isReady && old(seeking)) ==> seeking == old(seeking) && seekRequests == old(seekRequests)
    {
      hasRendition := true;
      if isReady && seeking {
        seekRequests := seekRequests + [debouncedProgress];
        seeking := false;
      }
    }

    /** `loadLastReadPage`: displays whatever page is stored. */
    method LoadLastReadPage()
      modifies this`displayRequests
      ensures isReady && hasRendition && bookId != "" && LastReadTarget(storage, bookId).Some? ==>
        displayRequests == old(displayRequests) + [LastReadTarget(storage, bookId).value]
      ensures !(isReady && hasRendition && bookId != "" && LastReadTarget(storage, bookId).Some?) ==>
        displayRequests == old(displayRequests)
    {
      if !(isReady && hasRendition && bookId != "") {
        return;
      }
      var target := LastReadTarget(storage, bookId);
      if target.Some? {
        displayRequests := displayRequests + [target.value];
      }
    }

    /** `manageLocations`: reads the count from the cache, or takes the
        engine's freshly generated list (`generated`, with the engine's own
        `total`) and caches it. */
    method ManageLocations(generated: seq<string>, generatedTotal: nat)
      modifies this`totalLocations, this`storage
      ensures !(isReady && hasRendition && bookId != "") ==>
        totalLocations == old(totalLocations) && storage == old(storage)
      ensures isReady && hasRendition && bookId != "" ==>
        match old(CachedLocations(storage, bookId))
        case None =>
          totalLocations == generatedTotal && storage == old(storage)[LocationsKey(bookId) := EncodeStrings(generated)]
          && CachedLocations(storage, bookId) == Some(Some(|generated|))
        case Some(None) => totalLocations == old(totalLocations) && storage == old(storage)
        case Some(Some(n)) => totalLocations == n && storage == old(storage)
    {
      if !(isReady && hasRendition && bookId != "") {
        return;
      }
      match CachedLocations(storage, bookId)
      case None =>
        GeneratedLocationsAreCached(storage, bookId, generated);
        totalLocations := generatedTotal;
        storage := storage[LocationsKey(bookId) := EncodeStrings(generated)];
      case Some(None) =>
      case Some(Some(n)) =>
        totalLocations := n;
    }

    /** A header panel button: the other panels close and this one flips. */
    method PanelButton(p: Panel)
      requires Valid()
      modifies this`openPanels
      ensures Valid()
      ensures p in openPanels <==> p !in old(openPanels)
      ensures forall q :: q != p ==> q !in openPanels
    {
      openPanels := TogglePanel(openPanels, p);
    }

    /** `handleClick` on the page: the bar is toggled unless a swipe is under
        way or a panel is open; every change of the bar closes all panels. */
    method HandleClick(isSwiping: bool)
      requires Valid()
      modifies this`showUI, this`openPanels
      ensures Valid()
      ensures isSwiping || old(openPanels) != {} ==> showUI == old(showUI) && openPanels == old(openPanels)
      ensures !isSwiping && old(openPanels) == {} ==> showUI == !old(showUI) && openPanels == {}
    {
      if isSwiping || openPanels != {} {
        return;
      }
      showUI := !showUI;
      openPanels := HideAllPanel(openPanels, None);
    }
  }
}
