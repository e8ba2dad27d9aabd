# Nalnda Reader: the reader's session rules in Dafny

This project models the core of the Nalnda EPUB reader, a React web
application. The model covers:

- the reader page's session rules, split into the swipe page-turn recogniser
  and everything else: launch parameters, keyboard navigation, bookmarks,
  last-read page, cached locations, the slider's seek guard, the progress
  percent and the side panels;
- the annotation list with its preview and remote persistence;
- the read-aloud panel's state machine and its voice preference;
- the reader-preferences panel and its constant tables;
- the range slider's keyboard rule;
- the highlight context menu's placement and listeners;
- the swipeable font picker;
- the user reducer.

The outside world comes in as inputs:

- The rendering engine (epub.js) appears as its answers: the current location,
  a generated location list, whether the engine is speaking or paused.
- The server appears as a `Response` (`Status(code)` or `NetworkError`), or as
  a `Fetch` for the annotation list. As with the HTTP client's default, a
  status outside 2xx rejects the request just as a missing reply does.
- The browser's storage is a `map<string, string>` field.
- Timers become explicit steps, such as `DebounceSettled`,
  `RespeakTimerFired` and `TransitionEnded`.
- `JSON.stringify`/`JSON.parse` are replaced by the small codec in `JsonText`.
  It covers exactly the shapes the reader writes: the bookmark record, the
  location list and the annotation list. Each shape has a proved round trip.

Modules follow the source files:

| module | file | source |
|---|---|---|
| `Common` | common.dfy | shared `Option`, `Response`, `split(c)[0]` |
| `JsonText` | json_text.dfy | the stored text formats |
| `ReaderTheme` | reader_theme.dfy | src/config/readerTheme.js |
| `Customizer` | customizer.dfy | src/components/ui/Customizer/Customizer.jsx |
| `RangeSlider` | range_slider.dfy | src/components/ui/RangeSlider/RangeSlider.jsx |
| `ContextMenu` | context_menu.dfy | src/components/ui/Annotation/AnnotationContextMenu.jsx |
| `FontSelector` | font_selector.dfy | src/components/ui/FontSelector/FontSelector.jsx |
| `UserReducer` | user_reducer.dfy | src/store/reducers/user.js |
| `Speech` | speech.dfy | src/components/ui/TextToSpeech/TextToSpeechPlayer.jsx |
| `Annotations` | annotations.dfy | src/components/ui/Annotation/AnnotationPanel.jsx |
| `Swipe` | swipe.dfy | src/pages/ReaderMobile.jsx, `attachSwipeToDoc` |
| `ReaderSession` | reader_session.dfy | src/pages/ReaderMobile.jsx, the rest |

State that the source changes step by step is modelled as a class:

| class | state |
|---|---|
| `ReaderSession.ReaderPage` | the reader page |
| `Swipe.Recognizer` | the per-document swipe closure |
| `Swipe.Attachments` | the set of documents that have swipe listeners |
| `Annotations.AnnotationPanel` | the annotation list |
| `Speech.SpeechPanel` | the read-aloud panel |
| `Speech.Utterance` | an utterance, whose rate and volume change in place |
| `Customizer.PreferencePanel` | the reader-preferences panel |
| `FontSelector.Picker` | the swipeable font picker |

Expression-shaped code is modelled as functions with lemmas.

## Model

| member | source | states |
|---|---|---|
| Common.BeforeFirst | src/pages/ReaderMobile.jsx:230-231 | `split(c)[0]` is the longest prefix without `c`; where it is shorter than the text, `c` follows it |
| Common.ContainsIffOccurs | src/components/ui/TextToSpeech/TextToSpeechPlayer.jsx:112-114 | `includes` holds exactly when the text occurs at some position |
| JsonText.QuoteRoundTrip | src/pages/ReaderMobile.jsx:316 | a quoted string reads back as itself and leaves the rest of the text unread |
| JsonText.BookmarkRoundTrip | src/pages/ReaderMobile.jsx:308-316 | the stored `{cfi, percent}` record parses back to the same bookmark |
| JsonText.EmptyIsNoBookmark | src/pages/ReaderMobile.jsx:370 | the empty text written on removal is not a bookmark |
| JsonText.StringsRoundTrip | src/pages/ReaderMobile.jsx:918-926 | a cached location list parses back to the same list |
| JsonText.AnnotationsRoundTrip | src/components/ui/Annotation/AnnotationPanel.jsx:257-264 | a stored annotation list parses back to the same list |
| ReaderTheme.FontIndex | src/components/ui/Customizer/Customizer.jsx:121-123 | `findIndex` by id returns the first position holding the id, or -1 exactly when none does |
| ReaderTheme.FindFont | src/config/readerTheme.js:18-25 | `find` by id returns a table entry with that id, or None exactly when none has it |
| ReaderTheme.FindTheme | src/components/ui/Customizer/Customizer.jsx:52 | `find` by id returns a table theme with that id, or None exactly when none has it; a match at the head is the one returned |
| ReaderTheme.FontIndexOfId | src/config/readerTheme.js:18-25 | with unique ids, looking up the id of the font at `k` gives `k` |
| ReaderTheme.TablesWellFormed | src/config/readerTheme.js:2-30 | font and theme ids are unique; font-size bounds are 50..250 in steps of 10 |
| ReaderTheme.DefaultsResolve | src/config/readerTheme.js:33-39 | the default font is Roboto and the default theme is Light; font size 60 lies within the bounds; margin 8 is an option; line height 1.6 is "normal" |
| ReaderTheme.BaseTheme | src/config/readerTheme.js:41-56 | the base body's font size and margin are percentages; its font stack and colours are those of the given font and theme |
| ReaderTheme.BaseThemeOfDefaults | src/config/readerTheme.js:41-56 | the base body has font size "60%", margin "8%", the Roboto stack and the Light colours |
| Customizer.LoadedPreferences | src/components/ui/Customizer/Customizer.jsx:27-46 | missing or unparseable storage gives the defaults; a parsed record keeps its present fields and takes defaults for each missing one |
| Customizer.DefaultsMatchConfig | src/components/ui/Customizer/Customizer.jsx:10-14 | the panel's starting record agrees field by field with `ReaderDefault` |
| Customizer.FontSizeDown | src/components/ui/Customizer/Customizer.jsx:183-190 | the minus button gives max(50, size − 10): it subtracts 10 where that stays at or above 50, and gives 50 otherwise |
| Customizer.FontSizeUp | src/components/ui/Customizer/Customizer.jsx:191-199 | the plus button gives min(250, size + 10): it adds 10 where that stays at or below 250, and gives 250 otherwise |
| Customizer.FontSizeStaysInBounds | src/components/ui/Customizer/Customizer.jsx:183-199 | both buttons keep a font size in [50, 250] inside it |
| Customizer.FontSizeDownUndoesUp | src/components/ui/Customizer/Customizer.jsx:183-199 | minus undoes plus wherever plus was not cut off |
| Customizer.MarginFontSize | src/components/ui/Customizer/Customizer.jsx:85-109 | margins 5, 10 and 15 map to 80, 90 and 100; every other margin maps to 80 + 1.33 × margin |
| Customizer.MarginOptionsUseFormula | src/components/ui/Customizer/Customizer.jsx:85-109 | the offered margins 4, 8 and 16 never reach a fixed case; they give 85.32, 90.64 and 101.28 |
| Customizer.NextFontIndex | src/components/ui/Customizer/Customizer.jsx:125-129 | the next index is always a position: i + 1, wrapping to 0 after the last |
| Customizer.NextFontId | src/components/ui/Customizer/Customizer.jsx:125-129 | "next" selects a table font: the one after the current font, wrapping to the first after the last |
| Customizer.PrevFontIndex | src/components/ui/Customizer/Customizer.jsx:131-135 | the previous index is n - 1 at 0 and i - 1 otherwise; an unknown font (-1) gives -2 |
| Customizer.PrevFontId | src/components/ui/Customizer/Customizer.jsx:131-135 | "prev" fails exactly when the current font is not in the table |
| Customizer.PrevAfterNext | src/components/ui/Customizer/Customizer.jsx:121-135 | prev after next restores any font in the table |
| Customizer.NextAfterPrev | src/components/ui/Customizer/Customizer.jsx:121-135 | next after prev restores any font in the table |
| Customizer.UnknownFontCycle | src/components/ui/Customizer/Customizer.jsx:121-135 | with an unknown id, next selects the first font and prev fails |
| Customizer.ResolveTheme | src/components/ui/Customizer/Customizer.jsx:50-54 | the applied theme is a table entry: the one with the id, else the first |
| Customizer.ResolveFont | src/components/ui/Customizer/Customizer.jsx:51-55 | the applied font is a table entry: the one with the id, else the first |
| Customizer.ApplyPreferences | src/components/ui/Customizer/Customizer.jsx:48-73 | size, line height and margin pass through; colours and body theme are those of the resolved theme, the font stack that of the resolved font |
| Customizer.AppliedThemeIsNamedEntry | src/components/ui/Customizer/Customizer.jsx:48-73 | the colours and body theme are those of the table theme the record names, or of the first theme for an unknown id |
| Customizer.AppliedFontIsNamedEntry | src/components/ui/Customizer/Customizer.jsx:48-73 | the font stack is that of the table font the record names, or of the first font for an unknown id |
| Customizer.PreferencePanel.constructor | src/components/ui/Customizer/Customizer.jsx:10-14 | the panel starts with the default record |
| Customizer.PreferencePanel.Load | src/components/ui/Customizer/Customizer.jsx:37-46 | the mount effect replaces the record with the loaded one |
| Customizer.PreferencePanel.Apply | src/components/ui/Customizer/Customizer.jsx:48-73 | without an engine nothing happens; with one, the resolved overrides are applied and the record is saved |
| Customizer.PreferencePanel.UpdateFontSize | src/components/ui/Customizer/Customizer.jsx:75-78 | only the font size changes |
| Customizer.PreferencePanel.DecreaseFontSize | src/components/ui/Customizer/Customizer.jsx:183-190 | only the font size changes, to the minus-button value |
| Customizer.PreferencePanel.IncreaseFontSize | src/components/ui/Customizer/Customizer.jsx:191-199 | only the font size changes, to the plus-button value |
| Customizer.PreferencePanel.UpdateLineHeight | src/components/ui/Customizer/Customizer.jsx:80-83 | only the line height changes |
| Customizer.PreferencePanel.UpdateMargin | src/components/ui/Customizer/Customizer.jsx:85-109 | the margin and the font size it maps to change together, nothing else |
| Customizer.PreferencePanel.SetTheme | src/components/ui/Customizer/Customizer.jsx:111-114 | only the theme changes; a missing argument selects Light |
| Customizer.PreferencePanel.SetFont | src/components/ui/Customizer/Customizer.jsx:116-119 | only the font changes |
| Customizer.PreferencePanel.CycleFontNext | src/components/ui/Customizer/Customizer.jsx:125-129 | only the font changes, always to a table font |
| Customizer.PreferencePanel.CycleFontPrev | src/components/ui/Customizer/Customizer.jsx:131-135 | succeeds exactly for a known font and then changes only the font; otherwise changes nothing |
| RangeSlider.Progress | src/components/ui/RangeSlider/RangeSlider.jsx:7-18 | the painted fraction lies in [0, 1]: (value - min)/(max - min) inside the range, 0 below, 1 above; NaN exactly when max = min = value |
| RangeSlider.EffectiveStep | src/components/ui/RangeSlider/RangeSlider.jsx:24 | a zero step counts as 1; any other step is kept |
| RangeSlider.KeyDown | src/components/ui/RangeSlider/RangeSlider.jsx:21-56 | a value is reported exactly for the six handled keys with a handler; left/down step down to at least min, right/up step up to at most max, Home gives min and End gives max |
| RangeSlider.KeyDownStaysInRange | src/components/ui/RangeSlider/RangeSlider.jsx:24-45 | from a value inside [min, max], every reported value stays inside |
| RangeSlider.ArrowKeysAreInverse | src/components/ui/RangeSlider/RangeSlider.jsx:28-37 | a step down undoes a step up that was not cut off, and the other way round |
| RangeSlider.HomeAndEndProgress | src/components/ui/RangeSlider/RangeSlider.jsx:11-14 | Home paints an empty track and End a full one |
| ContextMenu.Round | src/components/ui/Annotation/AnnotationContextMenu.jsx:57-60 | `Math.round` is the integer within half of the value, halves rounding up |
| ContextMenu.ClampToViewport | src/components/ui/Annotation/AnnotationContextMenu.jsx:45-55 | the box's left edge and top are always at least 8; its right edge and bottom are inside the padding whenever the viewport can hold the box |
| ContextMenu.ClampKeepsFittingAnchor | src/components/ui/Annotation/AnnotationContextMenu.jsx:45-55 | an anchor whose box already fits is returned unchanged |
| ContextMenu.ClampIdempotent | src/components/ui/Annotation/AnnotationContextMenu.jsx:45-55 | clamping twice is clamping once |
| ContextMenu.MenuAnchor | src/components/ui/Annotation/AnnotationContextMenu.jsx:42-60 | the menu is drawn exactly when a document exists, it is visible and it has a position; its box then starts inside the padding |
| ContextMenu.HandleInput | src/components/ui/Annotation/AnnotationContextMenu.jsx:63-123 | a colour adds a highlight in one of the five colours, then closes; the close button closes; a backdrop click closes exactly when it hits the backdrop itself |
| ContextMenu.ListenersAsWritten | src/components/ui/Annotation/AnnotationContextMenu.jsx:28-39 | as written, at most one listener is added per recomputation, and none without a registering run |
| ContextMenu.Listeners | src/components/ui/Annotation/AnnotationContextMenu.jsx:28-39 | with cleanup, there is one listener exactly when the latest run registered |
| ContextMenu.EscapeCloses | src/components/ui/Annotation/AnnotationContextMenu.jsx:31-35 | Escape calls `onClose` once per attached listener |
| ContextMenu.StaleEscapeListener | src/components/ui/Annotation/AnnotationContextMenu.jsx:28-39 | showing then hiding the menu leaves a listener as written (Escape still closes) and none with cleanup |
| ContextMenu.ListenersAccumulate | src/components/ui/Annotation/AnnotationContextMenu.jsx:28-39 | as written, each registering run adds one more listener |
| ContextMenu.EscapeClosesOnlyShownMenu | src/components/ui/Annotation/AnnotationContextMenu.jsx:28-39 | with cleanup, Escape closes once while the menu is shown and does nothing after |
| FontSelector.CategoryIndex | src/components/ui/FontSelector/FontSelector.jsx:41 | `indexOf` gives the category's position, or -1 exactly for a string outside the list |
| FontSelector.SwipeCategory | src/components/ui/FontSelector/FontSelector.jsx:37-49 | the result is always a category; a short swipe keeps it; a long right swipe moves back and a long left swipe moves forward, without wrapping at the ends |
| FontSelector.SwipesAreInverse | src/components/ui/FontSelector/FontSelector.jsx:41-49 | a long left swipe undoes a long right swipe that moved |
| FontSelector.FontsByCategoryAsWritten | src/components/ui/FontSelector/FontSelector.jsx:19-21 | as written, a listed font has `category` equal to the category |
| FontSelector.FilterCategory | src/components/ui/FontSelector/FontSelector.jsx:19-21 | the filter keeps only fonts of the list whose category matches |
| FontSelector.NoFontInAnyCategory | src/components/ui/FontSelector/FontSelector.jsx:19-21 | as written, no font is listed under any category, because the table has no `category` field |
| FontSelector.GenericFamily | src/config/readerTheme.js:18-25 | the generic family is the suffix of the CSS value after its last space |
| FontSelector.FontsByCategory | src/components/ui/FontSelector/FontSelector.jsx:19-21 | a font is listed under a category exactly when the font's generic family is that category |
| FontSelector.FilterFamily | src/components/ui/FontSelector/FontSelector.jsx:19-21 | the filter keeps exactly the fonts of the list whose generic family matches |
| FontSelector.EveryFontHasACategory | src/components/ui/FontSelector/FontSelector.jsx:12-21 | every table font is listed under one of the three categories |
| FontSelector.FamilyOfFont | src/config/readerTheme.js:18-25 | each font's generic family is "serif" or "sans-serif" |
| FontSelector.GenericFamilyAfterSpace | src/config/readerTheme.js:18-25 | a stack ending in " " + g, with no space in g, has generic family g |
| FontSelector.Picker.constructor | src/components/ui/FontSelector/FontSelector.jsx:7-9 | the picker starts on "serif" with no touch and no transition |
| FontSelector.Picker.TouchStart | src/components/ui/FontSelector/FontSelector.jsx:23-25 | the start point is recorded |
| FontSelector.Picker.TouchMove | src/components/ui/FontSelector/FontSelector.jsx:27-30 | scrolling is suppressed exactly when a (truthy) start point exists |
| FontSelector.Picker.TouchEnd | src/components/ui/FontSelector/FontSelector.jsx:32-55 | ignored without a start point or during a transition; otherwise the category moves by the swipe rule, a transition starts exactly for a long swipe, and the start point is cleared; the category stays in the list |
| FontSelector.Picker.TransitionEnded | src/components/ui/FontSelector/FontSelector.jsx:51 | the transition ends |
| FontSelector.Picker.SelectCategory | src/components/ui/FontSelector/FontSelector.jsx:69 | a click selects the category unless a transition is running |
| UserReducer.ExpiryMillis | src/store/reducers/user.js:27-28 | the expiry exists exactly when the token decodes, and is the decoded `exp` times 1000 |
| UserReducer.Reduce | src/store/reducers/user.js:17-62 | SET_USER throws exactly when the token does not decode, FOUND_USER exactly when the record has no token; otherwise SET_USER stores uid, wallet, raw token and `exp` × 1000 and FOUND_USER the record verbatim; both keep the other fields and persist the user; UNSET_USER gives the initial state and logs out; other actions change nothing |
| UserReducer.FoundRestoresSet | src/store/reducers/user.js:20-55 | replaying the persisted user as FOUND_USER rebuilds what SET_USER built |
| UserReducer.UnsetForgetsUser | src/store/reducers/user.js:56-58 | after UNSET_USER, uid, wallet and token are all null, whatever came before |
| UserReducer.FoundUserIdempotent | src/store/reducers/user.js:38-55 | FOUND_USER throws exactly for a record without a token; otherwise applying it twice equals once |
| Speech.IsPreferred | src/components/ui/TextToSpeech/TextToSpeechPlayer.jsx:112-114 | a preferred voice has "en-US" or "en-GB" in its language and, unless it is the default, "Google" or "Microsoft" in its name |
| Speech.PreferredIndex | src/components/ui/TextToSpeech/TextToSpeechPlayer.jsx:112-115 | the first English (US/UK) Google, Microsoft or default voice, or -1 exactly when none qualifies |
| Speech.FindPreferred | src/components/ui/TextToSpeech/TextToSpeechPlayer.jsx:112-115 | the first qualifying voice of the list, or None exactly when none qualifies |
| Speech.FindDefault | src/components/ui/TextToSpeech/TextToSpeechPlayer.jsx:115 | the first default voice of the list, or None exactly when there is none |
| Speech.PreferredVoice | src/components/ui/TextToSpeech/TextToSpeechPlayer.jsx:111-117 | the pick is a voice of the list: the first preferred one, else the first default one, else the first |
| Speech.PreferredVoiceIsFirstQualifying | src/components/ui/TextToSpeech/TextToSpeechPlayer.jsx:111-117 | when any voice qualifies, the pick qualifies and no earlier voice does |
| Speech.FindVoice | src/components/ui/TextToSpeech/TextToSpeechPlayer.jsx:232 | the first voice with that name, or None exactly when there is none |
| Speech.TrimStart | src/components/ui/TextToSpeech/TextToSpeechPlayer.jsx:40 | the result does not start with whitespace, and only whitespace was removed |
| Speech.TrimEnd | src/components/ui/TextToSpeech/TextToSpeechPlayer.jsx:40 | the result does not end with whitespace, and only whitespace was removed |
| Speech.Trim | src/components/ui/TextToSpeech/TextToSpeechPlayer.jsx:40 | the trimmed text is no longer than the input and does not end in whitespace |
| Speech.TrimHasNoOuterWhitespace | src/components/ui/TextToSpeech/TextToSpeechPlayer.jsx:40 | the trimmed text neither starts nor ends with whitespace |
| Speech.TrimStartIsSuffix | src/components/ui/TextToSpeech/TextToSpeechPlayer.jsx:40 | trimming the start leaves a suffix |
| Speech.TrimEndIsPrefix | src/components/ui/TextToSpeech/TextToSpeechPlayer.jsx:40 | trimming the end leaves a prefix |
| Speech.TrimIsMiddle | src/components/ui/TextToSpeech/TextToSpeechPlayer.jsx:40 | the trimmed text is a contiguous middle part of the input |
| Speech.TrimIdempotent | src/components/ui/TextToSpeech/TextToSpeechPlayer.jsx:40 | trimming twice is trimming once |
| Speech.ContentText | src/components/ui/TextToSpeech/TextToSpeechPlayer.jsx:37-41 | a document gives text only when it has a window and a selection |
| Speech.SelectionIndex | src/components/ui/TextToSpeech/TextToSpeechPlayer.jsx:33-48 | the first document with a non-empty selection, or -1 exactly when there is none |
| Speech.FirstSelection | src/components/ui/TextToSpeech/TextToSpeechPlayer.jsx:36-44 | "" exactly when no document has a non-empty trimmed selection; otherwise the first such selection |
| Speech.GetSelectedText | src/components/ui/TextToSpeech/TextToSpeechPlayer.jsx:33-48 | the loop returns the first non-empty trimmed selection, or "" (always "" without a rendition); the result is trimmed |
| Speech.Utterance.constructor | src/components/ui/TextToSpeech/TextToSpeechPlayer.jsx:154-158 | an utterance carries the text, rate, volume and voice it was created with |
| Speech.ErrorMessage | src/components/ui/TextToSpeech/TextToSpeechPlayer.jsx:173-178 | the error text starts with "Error: " and is never empty |
| Speech.RespeakSettingsAsWritten | src/components/ui/TextToSpeech/TextToSpeechPlayer.jsx:231-238 | as written, the re-speak after a voice change keeps the old voice |
| Speech.RespeakSettings | src/components/ui/TextToSpeech/TextToSpeechPlayer.jsx:231-238 | as intended, the re-speak uses the chosen voice with the same text, rate and volume |
| Speech.RespeakUsesStaleVoice | src/components/ui/TextToSpeech/TextToSpeechPlayer.jsx:231-238 | choosing B while A plays re-speaks with A as written and with B as intended |
| Speech.SpeechPanel.constructor | src/components/ui/TextToSpeech/TextToSpeechPlayer.jsx:15-27 | the panel starts stopped, with no error, rate 1, volume 0.8, no voice and no utterance |
| Speech.SpeechPanel.LoadVoices | src/components/ui/TextToSpeech/TextToSpeechPlayer.jsx:105-125 | a non-empty list is recorded and the preferred voice is picked only when none is set; an empty list changes nothing; a throw only marks voices loaded |
| Speech.SpeechPanel.SpeakWith | src/components/ui/TextToSpeech/TextToSpeechPlayer.jsx:143-185 | empty text only sets "No text selected"; otherwise cancel, then speak a fresh utterance with exactly these settings; without an engine, the thrown message is shown |
| Speech.SpeechPanel.SpeakText | src/components/ui/TextToSpeech/TextToSpeechPlayer.jsx:143-185 | with no text only "No text selected" is shown; otherwise a new utterance holds the current text, rate, volume and voice, and the engine gets cancel then speak, or, with no engine, the thrown error is shown and the playing flag cleared; nothing else changes |
| Speech.SpeechPanel.OnStart | src/components/ui/TextToSpeech/TextToSpeechPlayer.jsx:160-165 | playing, not paused, no error; nothing else changes |
| Speech.SpeechPanel.OnEnd | src/components/ui/TextToSpeech/TextToSpeechPlayer.jsx:167-171 | neither playing nor paused; nothing else changes (no next page is read) |
| Speech.SpeechPanel.OnError | src/components/ui/TextToSpeech/TextToSpeechPlayer.jsx:173-178 | neither playing nor paused, with a non-empty error |
| Speech.SpeechPanel.HandlePause | src/components/ui/TextToSpeech/TextToSpeechPlayer.jsx:189-196 | pauses (paused, not playing) only while the engine speaks; otherwise nothing changes |
| Speech.SpeechPanel.HandleResume | src/components/ui/TextToSpeech/TextToSpeechPlayer.jsx:197-204 | resumes (playing, not paused) only while the engine is paused; otherwise nothing changes |
| Speech.SpeechPanel.HandleStop | src/components/ui/TextToSpeech/TextToSpeechPlayer.jsx:205-214 | always ends neither playing nor paused, with no error and no utterance |
| Speech.SpeechPanel.HandleVolumeChange | src/components/ui/TextToSpeech/TextToSpeechPlayer.jsx:217-223 | the volume is recorded; while playing, the current utterance's volume changes in place and nothing else about it |
| Speech.SpeechPanel.HandleRateChange | src/components/ui/TextToSpeech/TextToSpeechPlayer.jsx:224-230 | the rate is recorded; while playing, the current utterance's rate changes in place and nothing else about it |
| Speech.SpeechPanel.HandleVoiceChangeAsWritten | src/components/ui/TextToSpeech/TextToSpeechPlayer.jsx:231-238 | selects the first voice with that name; while playing, the whole state becomes the stopped state plus a scheduled re-speak that keeps the old voice; otherwise only the voice changes |
| Speech.SpeechPanel.HandleVoiceChange | src/components/ui/TextToSpeech/TextToSpeechPlayer.jsx:231-238 | selects the first voice with that name; while playing, the whole state becomes the stopped state plus a scheduled re-speak with that voice; otherwise only the voice changes |
| Speech.SpeechPanel.RespeakTimerFired | src/components/ui/TextToSpeech/TextToSpeechPlayer.jsx:236 | a scheduled re-speak is consumed: empty text only shows "No text selected"; otherwise a new utterance with its settings is spoken once, or with no engine the thrown error is shown; without one nothing changes |
| Speech.SpeechPanel.SelectionSettled | src/components/ui/TextToSpeech/TextToSpeechPlayer.jsx:51-63 | the first non-empty selection is stored; a changed selection while playing also gives exactly the stopped state; otherwise nothing else changes |
| Annotations.RemoveAt | src/components/ui/Annotation/AnnotationPanel.jsx:165 | removing a position shortens the list by one, keeping the others in order |
| Annotations.RemoveAtTakesOne | src/components/ui/Annotation/AnnotationPanel.jsx:165 | removal takes exactly that item out of the multiset |
| Annotations.WithoutCfi | src/components/ui/Annotation/AnnotationPanel.jsx:284 | the filter keeps exactly the annotations on other ranges |
| Annotations.AddRevertRestoresIff | src/components/ui/Annotation/AnnotationPanel.jsx:281-291 | the revert of a failed add restores the earlier list exactly when no annotation already had that range |
| Annotations.RemoveRevertDuplicates | src/components/ui/Annotation/AnnotationPanel.jsx:203-216 | the revert of a failed remove appends an item the list still holds, so it occurs once more, at least twice |
| Annotations.WithHighlights | src/components/ui/Annotation/AnnotationPanel.jsx:116-127 | highlights cover the old ranges plus every loaded range |
| Annotations.HighlightsKeepOtherRanges | src/components/ui/Annotation/AnnotationPanel.jsx:116-127 | a range no annotation uses keeps its old highlight colour |
| Annotations.HighlightsShowLastOnRange | src/components/ui/Annotation/AnnotationPanel.jsx:116-127 | each range shows the colour of the last annotation on it |
| Annotations.PreviewKey | src/components/ui/Annotation/AnnotationPanel.jsx:61 | the key is "preview_annotations_" followed by the book address |
| Annotations.LoadedList | src/components/ui/Annotation/AnnotationPanel.jsx:61-110 | nothing stored, "", "null" or text that does not parse give []; otherwise the parsed list |
| Annotations.StoredListLoadsBack | src/components/ui/Annotation/AnnotationPanel.jsx:257-264 | what preview mode stores loads back as the same list |
| Annotations.AnnotationPanel.constructor | src/components/ui/Annotation/AnnotationPanel.jsx:22 | the panel starts with no annotations and no highlights |
| Annotations.AnnotationPanel.Load | src/components/ui/Annotation/AnnotationPanel.jsx:55-135 | a no-op unless ready; preview loads the stored list; a remote 200 loads the payload; no reply or a status outside 2xx clears; another 2xx status changes nothing |
| Annotations.AnnotationPanel.Add | src/components/ui/Annotation/AnnotationPanel.jsx:229-297 | a no-op unless ready; the list becomes old ++ [a] and its highlight is shown; preview stores exactly that list; a 2xx reply keeps it; no reply or a status outside 2xx filters out that range and drops its highlight |
| Annotations.AnnotationPanel.Remove | src/components/ui/Annotation/AnnotationPanel.jsx:159-220 | a no-op unless ready; the highlight goes; preview stores and shows the shortened list; remotely the list shortens only on 200, stays on another 2xx, and on no reply or a status outside 2xx gets the item appended with its highlight back |
| Swipe.Threshold | src/pages/ReaderMobile.jsx:616 | the release threshold is min(innerWidth × 0.1, 60) |
| Swipe.StartStep | src/pages/ReaderMobile.jsx:633-643 | one finger and no open panel record the start point with no travel and no drag; otherwise nothing changes |
| Swipe.MoveStep | src/pages/ReaderMobile.jsx:645-665 | multi-touch or an open panel change nothing; the start point is kept; a drag starts exactly when the move is more horizontal than vertical and longer than 2, and once dragging every later move keeps dragging and prevents no default |
| Swipe.EndStep | src/pages/ReaderMobile.jsx:667-704 | a release without a drag never turns; with one, it turns exactly when beyond the threshold, forward for leftward travel; the drag always ends |
| Swipe.Gesture | src/pages/ReaderMobile.jsx:633-704 | a blocked gesture never turns; otherwise, with a threshold of at least 2, a down-move-up gesture turns exactly when its move was a long horizontal drag, forward only for leftward travel and back only for rightward |
| Swipe.SwipeThroughOpenPanel | src/pages/ReaderMobile.jsx:633-647 | listeners attached with panels closed still turn the page through a panel opened since |
| Swipe.OpenPanelStopsGestures | src/pages/ReaderMobile.jsx:633-647 | with the current flags, an open panel stops every gesture |
| Swipe.Recognizer.constructor | src/pages/ReaderMobile.jsx:610-616 | a recogniser starts at rest, with the threshold of the window width |
| Swipe.Recognizer.TouchStart | src/pages/ReaderMobile.jsx:633-643 | the tracker takes the start step and nothing else changes |
| Swipe.Recognizer.TouchMove | src/pages/ReaderMobile.jsx:645-665 | the tracker takes the move step; `isSwiping` is set exactly when a drag starts |
| Swipe.Recognizer.TouchEnd | src/pages/ReaderMobile.jsx:667-704 | the release step is taken; its page turn, if any, is requested once; swiping ends |
| Swipe.Attachments.constructor | src/pages/ReaderMobile.jsx:502 | no document is attached |
| Swipe.Attachments.Attach | src/pages/ReaderMobile.jsx:603-709 | a document is marked attached; it gets listeners only once, and only when it has a frame |
| ReaderSession.BookUrl | src/pages/ReaderMobile.jsx:435 | the book address exists exactly when base, token, content id and file name are all given |
| ReaderSession.BookUrlKeepsBase | src/pages/ReaderMobile.jsx:435 | the base is the text before the book address's first `?` |
| ReaderSession.LaunchFrom | src/pages/ReaderMobile.jsx:421-471 | the error screen shows exactly when a required parameter is empty or `pw` is "false" without a book address; otherwise the effect aborts exactly when `urtn` is missing or does not decode, and is ready in every other case; preview is false only for `pw` = "false" |
| ReaderSession.SetUserData | src/pages/ReaderMobile.jsx:450-456 | the SET_USER data carries `urid`, `urwt` and the raw `urtn` |
| ReaderSession.LaunchAbortsWhenSetUserThrows | src/pages/ReaderMobile.jsx:421-471 | with a token present, the launch aborts exactly when the reducer throws on its SET_USER; a ready launch leaves the store holding its uid, wallet and token |
| ReaderSession.HasRequired | src/pages/ReaderMobile.jsx:436-443 | the five required parameters `bkpw`, `bkte`, `bkid`, `bkas`, `oras` are all non-empty |
| ReaderSession.KeyCode | src/pages/ReaderMobile.jsx:857 | `keyCode || which`: the key code when non-zero, else `which`; zero only when both are |
| ReaderSession.KeyNavigation | src/pages/ReaderMobile.jsx:856-863 | "prev" is called exactly for ArrowLeft or code 37, "next" exactly for ArrowRight or code 39, in that order |
| ReaderSession.NavigatePage | src/pages/ReaderMobile.jsx:262-277 | with a rendition, "next" and "prev" turn that way; anything else, or no rendition, turns nothing |
| ReaderSession.Turns | src/pages/ReaderMobile.jsx:262-277 | at most one turn per call, none without a rendition |
| ReaderSession.KeyUpTurns | src/pages/ReaderMobile.jsx:856-863 | an arrow key turns one page its way; any other key turns none |
| ReaderSession.BookmarksKey | src/pages/ReaderMobile.jsx:206 | the key is the book id followed by ":bookmarks" |
| ReaderSession.LastReadKey | src/pages/ReaderMobile.jsx:191 | the key is the book id followed by ":lastread" |
| ReaderSession.LocationsKey | src/pages/ReaderMobile.jsx:916 | the key is the book id followed by ":locations" |
| ReaderSession.KeysDistinct | src/pages/ReaderMobile.jsx:191 | the bookmark, last-read and locations keys of a book differ; books never share a bookmark key |
| ReaderSession.CfiMatches | src/pages/ReaderMobile.jsx:226-237 | two CFIs match exactly when their parts before the first `!` are equal |
| ReaderSession.CfiMatchesSymmetric | src/pages/ReaderMobile.jsx:226-237 | the match does not depend on which CFI is the stored one |
| ReaderSession.SameSpineItemMatches | src/pages/ReaderMobile.jsx:230-235 | any two positions in one spine item match |
| ReaderSession.StoredBookmark | src/pages/ReaderMobile.jsx:206-216 | a missing or empty entry, or a record without a CFI, is no bookmark; a stored record with a CFI is returned as decoded |
| ReaderSession.IsBookmarked | src/pages/ReaderMobile.jsx:200-241 | true exactly when a rendition, a book id, a stored bookmark and a current CFI exist and the CFIs match |
| ReaderSession.AddedBookmarkIsFound | src/pages/ReaderMobile.jsx:313-316 | after the add write, the bookmark reads back and its page is bookmarked |
| ReaderSession.RemovedBookmarkIsGone | src/pages/ReaderMobile.jsx:367-372 | after the remove write no page is bookmarked; add followed by remove leaves none |
| ReaderSession.SaveLastRead | src/pages/ReaderMobile.jsx:184-198 | only the last-read key may change, and only with storage, a book id and a non-empty CFI |
| ReaderSession.LastReadTarget | src/pages/ReaderMobile.jsx:936-952 | a page is displayed exactly when a last-read entry exists, and it is the stored text |
| ReaderSession.LastReadRoundTrip | src/pages/ReaderMobile.jsx:184-198 | the saved page is the next one displayed, and saving leaves the bookmark alone |
| ReaderSession.CachedLocations | src/pages/ReaderMobile.jsx:911-934 | generation is needed exactly when nothing non-empty is cached; a non-empty cache gives its list length when it parses and a throw when it does not |
| ReaderSession.GeneratedLocationsAreCached | src/pages/ReaderMobile.jsx:923-926 | after caching a generated list, the next visit reads its length |
| ReaderSession.SliderMax | src/pages/ReaderMobile.jsx:1194 | the slider's maximum is positive and equals the location count when one is known |
| ReaderSession.Percent | src/pages/ReaderMobile.jsx:1188-1194 | the percent of the slider's range is at most 100 for any slider position, and 100 at the end |
| ReaderSession.PercentAsWritten | src/pages/ReaderMobile.jsx:1188 | before the locations are counted the percent is 100 × the position; afterwards it is the percent of the slider's range |
| ReaderSession.PercentBeforeLocationsAreCounted | src/pages/ReaderMobile.jsx:1188-1194 | the written percent agrees once locations are counted; before that, a position of 50 shows 5000 |
| ReaderSession.HideAllPanel | src/pages/ReaderMobile.jsx:248-253 | every open panel but the kept one closes; none opens |
| ReaderSession.TogglePanel | src/pages/ReaderMobile.jsx:1037-1091 | the button's panel flips and every other panel closes: at most one is open |
| ReaderSession.ReaderPage.constructor | src/pages/ReaderMobile.jsx:50-88 | the page starts ready, errored or neither, as the parameter effect leaves it |
| ReaderSession.BookmarkWrites | src/pages/ReaderMobile.jsx:337-354 | the entry is written in preview mode, on a 200 reply, and whenever the request is rejected (no reply or a status outside 2xx) |
| ReaderSession.RemoteWriteSkippedOnlyForOther2xx | src/pages/ReaderMobile.jsx:337-354 | a remote write is skipped exactly for a 2xx reply other than 200 |
| ReaderSession.ReaderPage.AddBookMark | src/pages/ReaderMobile.jsx:295-359 | writes the `{cfi, percent}` record (preview, 200, no reply or a status outside 2xx) or nothing (not ready, no location, a 2xx other than 200); after a write with a CFI, the page is bookmarked |
| ReaderSession.ReaderPage.RemoveBookMark | src/pages/ReaderMobile.jsx:361-413 | writes "" under the same conditions, after which the page is not bookmarked |
| ReaderSession.ReaderPage.ToggleBookMark | src/pages/ReaderMobile.jsx:415-419 | removes where bookmarked, else adds; a write flips the page's status |
| ReaderSession.ReaderPage.HandlePageUpdate | src/pages/ReaderMobile.jsx:255-260 | slider input sets `seeking` and the position |
| ReaderSession.ReaderPage.HandleRelocated | src/pages/ReaderMobile.jsx:832-849 | hides the menu, refreshes the bookmark status, follows the position without touching `seeking`, and saves the last-read page |
| ReaderSession.ReaderPage.DebounceSettled | src/pages/ReaderMobile.jsx:890-909 | a seek is requested only when `seeking` was set, and it clears `seeking` |
| ReaderSession.ReaderPage.RenditionReady | src/pages/ReaderMobile.jsx:890-909 | the engine's arrival (on a page without one) reruns the seek effect with the same rule |
| ReaderSession.ReaderPage.LoadLastReadPage | src/pages/ReaderMobile.jsx:936-952 | displays the stored last-read page when there is one |
| ReaderSession.ReaderPage.ManageLocations | src/pages/ReaderMobile.jsx:911-934 | reads the count from the cache; with none, caches the generated list; an unparseable cache changes nothing |
| ReaderSession.ReaderPage.PanelButton | src/pages/ReaderMobile.jsx:1037-1091 | the panel flips, the others close; at most one panel stays open |
| ReaderSession.ReaderPage.HandleClick | src/pages/ReaderMobile.jsx:851-854 | the bar toggles only when no swipe is under way and no panel is open; toggling closes all panels |

## Left out

- Rendering: the epub.js book and rendition are left out. That covers spine
  and table-of-contents lookups, content hooks, sanitisation, resize and
  spread switching, fullscreen, CSS transforms, animations and all markup.
- Server calls are left out. Each reply is an input (`Response` or `Fetch`).
  Loading flags and the spinner are not modelled.
- Timers are explicit steps rather than time: the 300 ms debounce, the 250 ms
  swipe animation, the 50 ms re-speak, the 300 ms category transition, and
  the selection polling.
- src/helpers/functions is not part of this model. `isUsable` is taken as
  "not null or undefined" and `isFilled` as "a non-empty string".
- The analytics tracker, console logging, src/helpers/errorHandler.js, the
  side-panel wrapper and the application wiring are left out.
- JsonText: only the shapes the reader writes are read back. Only `"` and `\`
  are escaped. Other JSON texts count as "does not parse". A bookmark with an
  undefined `percentage` is not modelled.
- ReaderSession.ReaderPage.ManageLocations: the engine's `total` is an input.
  Whether it equals the list's length is the library's business. A cached
  text that parses to a non-array (count 0 in the source) counts as
  unparseable here.
- ReaderSession.ReaderPage.HandleRelocated: the location the bookmark check
  reads is the relocated start. The 100 ms re-check effect uses the same
  function and is not modelled separately.
- ReaderSession.ReaderPage.DebounceSettled: the seek is recorded as a request
  for the position. `cfiFromLocation` and `display` are engine calls that are
  left out.
- Swipe.Recognizer.TouchEnd: `isSwiping` is cleared at once. The source
  clears it after the 250 ms page-turn animation.
- Speech.Trim: only the listed whitespace characters are trimmed, not every
  Unicode space separator.
- Speech.SpeechPanel.SelectionSettled: a `getContents` call that throws is
  not modelled.
- Storage writes that throw (for example, a full quota) are not modelled.
- Customizer: storage reads of `READER_PREFERENCES` are a `Saved` input.
  Floating-point rounding of `80 + margin * 1.33` is not modelled (reals are
  exact).
- UserReducer.Reduce: `postData` and `logout` become returned effects. The
  token decoder is a parameter. `moment` is reduced to epoch milliseconds.
- src/store/actions/user.js is not part of this model. `setUser` is taken to
  wrap its data unchanged into a SET_USER action.
- ReaderSession.LaunchFrom: a throw inside the parameter effect is modelled
  as the `Aborted` outcome; what React does with the error beyond leaving the
  page neither ready nor errored is left out.

## Findings

| source | as written | input that shows it | evidently intended | confidence | as-written member | corrected member |
|---|---|---|---|---|---|---|
| src/pages/ReaderMobile.jsx:633-647 | The swipe listeners test the panel flags captured when they were attached. The attaching effect (deps at line 763) does not rerun when a panel opens. | Listeners attached with all panels closed; the read-aloud player (rendered without a side panel, lines 1201-1205) opens; a 100 px leftward swipe turns the page. | An open panel or context menu blocks swipes. | not executed; high | Swipe.SwipeThroughOpenPanel | Swipe.OpenPanelStopsGestures |
| src/components/ui/TextToSpeech/TextToSpeechPlayer.jsx:231-238 | The 50 ms re-speak calls the `speakText` of the render that handled the change, whose `voice` state is still the old voice. | Voice A playing; choose voice B; the utterance spoken again uses A. | The re-speak uses the chosen voice. | not executed; high | Speech.SpeechPanel.HandleVoiceChangeAsWritten | Speech.SpeechPanel.HandleVoiceChange |
| src/components/ui/Annotation/AnnotationContextMenu.jsx:28-39 | The Escape listener is added inside `useMemo`. The returned cleanup is only the memoised value and never runs, so listeners accumulate. | Show the menu, then hide it; Escape still calls `onClose`. | One listener while the menu is shown, none after. | not executed; high | ContextMenu.ListenersAsWritten | ContextMenu.Listeners |
| src/components/ui/FontSelector/FontSelector.jsx:19-21 | Fonts are filtered on `font.category`, a field the font table does not have. | Any category: the list is empty. | The fonts whose generic family is the category. | not executed; high | FontSelector.NoFontInAnyCategory | FontSelector.EveryFontHasACategory |
| src/pages/ReaderMobile.jsx:1188 | The percent divides by `TotalLocations \|\| 1`, while the slider (line 1194) runs to `TotalLocations \|\| 100`. | TotalLocations 0 (not yet counted) and position 50: the bar shows 5000%. | The percent of the slider's range, at most 100. | not executed; medium | ReaderSession.PercentBeforeLocationsAreCounted | ReaderSession.Percent |
