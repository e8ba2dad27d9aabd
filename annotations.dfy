/** The annotation list (src/components/ui/Annotation/AnnotationPanel.jsx): the
    ordered list of highlights of a book, kept in the browser's storage in
    preview mode and on the server otherwise, mirrored as highlights in the
    rendering engine, with the panel's own revert steps when the server
    cannot be reached. */
module Annotations {
  import opened Common
  import opened JsonText

  /** The reply to the list request: a status with the body's `annotations`
      field (None where the field is missing), or no reply. */
  datatype Fetch = Fetched(code: int, payload: Option<string>) | FetchFailed

  /** Whether the list request is rejected into its `.catch` branch: no
      reply, or a status outside 2xx. */
  predicate FetchRejected(f: Fetch)
  {
    f.FetchFailed? || !Resolved(Status(f.code))
  }

  // ---------------------------------------------------------------------
  // List operations

  /** `list.filter((_, i) => i !== index)` */
  function RemoveAt(s: seq<Annotation>, index: int): (r: seq<Annotation>)
    ensures !(0 <= index < |s|) ==> r == s
    ensures 0 <= index < |s| ==>
      && |r| == |s| - 1
      && (forall j :: 0 <= j < index ==> r[j] == s[j])
      && (forall j :: index <= j < |r| ==> r[j] == s[j + 1])
  {
    if 0 <= index < |s| then s[..index] + s[index + 1..] else s
  }

  /** Removing a position takes exactly that one entry out of the multiset. */
  lemma RemoveAtTakesOne(s: seq<Annotation>, index: nat)
    requires index < |s|
    ensures multiset(RemoveAt(s, index)) + multiset{s[index]} == multiset(s)
  {
    assert s == s[..index] + [s[index]] + s[index + 1..];
  }

  /** `list.filter(ann => ann.cfiRange !== cfi)` */
  function WithoutCfi(s: seq<Annotation>, cfi: string): (r: seq<Annotation>)
    ensures |r| <= |s|
    ensures forall a :: a in r ==> a in s && a.cfiRange != cfi
    ensures forall a :: a in s && a.cfiRange != cfi ==> a in r
  {
    if s == [] then []
    else (if s[0].cfiRange == cfi then [] else [s[0]]) + WithoutCfi(s[1..], cfi)
  }

  lemma {:induction false} WithoutAbsentCfi(s: seq<Annotation>, cfi: string)
    requires forall j :: 0 <= j < |s| ==> s[j].cfiRange != cfi
    ensures WithoutCfi(s, cfi) == s
  {
    if s != [] {
      WithoutAbsentCfi(s[1..], cfi);
    }
  }

  lemma {:induction false} WithoutPresentCfiShrinks(s: seq<Annotation>, cfi: string, k: nat)
    requires k < |s| && s[k].cfiRange == cfi
    ensures |WithoutCfi(s, cfi)| < |s|
  {
    if k > 0 {
      WithoutPresentCfiShrinks(s[1..], cfi, k - 1);
    }
  }

  /** The revert of a failed remote add gives back the list from before the
      add exactly when no annotation already had that range; otherwise it
      also drops the older annotations on that range. */
  lemma AddRevertRestoresIff(s: seq<Annotation>, a: Annotation)
    ensures WithoutCfi(s + [a], a.cfiRange) == s <==> forall j :: 0 <= j < |s| ==> s[j].cfiRange != a.cfiRange
  {
    if forall j :: 0 <= j < |s| ==> s[j].cfiRange != a.cfiRange {
      WithoutAbsentCfi(s, a.cfiRange);
      WithoutCfiAppend(s, a);
    } else {
      var k :| 0 <= k < |s| && s[k].cfiRange == a.cfiRange;
      WithoutPresentCfiShrinks(s + [a], a.cfiRange, |s|);
      WithoutCfiAppend(s, a);
      WithoutPresentCfiShrinks(s, a.cfiRange, k);
    }
  }

  /** Filtering out the range of the appended annotation removes it too. */
  lemma {:induction false} WithoutCfiAppend(s: seq<Annotation>, a: Annotation)
    ensures WithoutCfi(s + [a], a.cfiRange) == WithoutCfi(s, a.cfiRange)
  {
    if s == [] {
      assert [a][1..] == [];
    } else {
      assert (s + [a])[1..] == s[1..] + [a];
      WithoutCfiAppend(s[1..], a);
    }
  }

  /** The revert of a failed remote remove appends the item to a list that
      still holds it: the item then occurs once more than before. */
  lemma RemoveRevertDuplicates(s: seq<Annotation>, index: nat)
    requires index < |s|
    ensures multiset(s + [s[index]])[s[index]] == multiset(s)[s[index]] + 1
    ensures multiset(s + [s[index]])[s[index]] >= 2
  {
    assert s[index] in multiset(s);
  }

  // ---------------------------------------------------------------------
  // Highlights and stored text

  /** Adding a highlight for each annotation in order; a later annotation on
      the same range replaces the earlier one. */
  function WithHighlights(h: map<string, string>, list: seq<Annotation>): (r: map<string, string>)
    ensures r.Keys == h.Keys + set a | a in list :: a.cfiRange
    decreases |list|
  {
    if list == [] then h
    else
      var last := list[|list| - 1];
      WithHighlights(h, list[..|list| - 1])[last.cfiRange := last.color]
  }

  /** A range no annotation uses keeps the highlight it had. */
  lemma {:induction false} HighlightsKeepOtherRanges(h: map<string, string>, list: seq<Annotation>, k: string)
    requires k in h && forall j :: 0 <= j < |list| ==> list[j].cfiRange != k
    ensures WithHighlights(h, list)[k] == h[k]
    decreases |list|
  {
    if list != [] {
      HighlightsKeepOtherRanges(h, list[..|list| - 1], k);
    }
  }

  /** Each range shows the colour of the last annotation on it. */
  lemma {:induction false} HighlightsShowLastOnRange(h: map<string, string>, list: seq<Annotation>, i: nat)
    requires i < |list| && forall j :: i < j < |list| ==> list[j].cfiRange != list[i].cfiRange
    ensures WithHighlights(h, list)[list[i].cfiRange] == list[i].color
    decreases |list|
  {
    if i < |list| - 1 {
      var init := list[..|list| - 1];
      assert forall j :: i < j < |init| ==> init[j].cfiRange != init[i].cfiRange by {
        forall j | i < j < |init| ensures init[j].cfiRange != init[i].cfiRange {
          assert init[j] == list[j] && init[i] == list[i];
        }
      }
      HighlightsShowLastOnRange(h, init, i);
    }
  }

  /** The key preview annotations are stored under. */
  function PreviewKey(bookAddress: string): (k: string)
    ensures |k| == 20 + |bookAddress| && k[..20] == "preview_annotations_" && k[20..] == bookAddress
  {
    "preview_annotations_" + bookAddress
  }

  /** The list the load effect shows for a stored (or fetched) text: nothing
      stored, an empty text, `null` or text that does not parse all give []. */
  function LoadedList(stored: Option<string>): (l: seq<Annotation>)
    ensures stored.None? || stored == Some("") || stored == Some("null") ==> l == []
    ensures stored.Some? && stored.value != "null" && DecodeAnnotations(stored.value).Some? ==>
      l == DecodeAnnotations(stored.value).value
    ensures stored.Some? && DecodeAnnotations(stored.value).None? ==> l == []
  {
    match stored
    case None => []
    case Some(t) =>
      if t == "" || t == "null" then []
      else
        match DecodeAnnotations(t)
        case Some(l) => l
        case None => []
  }

  /** What preview mode stores for a list loads back as that list. */
  lemma StoredListLoadsBack(list: seq<Annotation>)
    ensures LoadedList(Some(EncodeAnnotations(list))) == list
  {
    var t := EncodeAnnotations(list);
    assert t[0] == '[';
    AnnotationsRoundTrip(list);
  }

  /** The panel: the list, the browser storage it writes in preview mode, and
      the engine's highlights keyed by range. */
  class AnnotationPanel {
    var annotations: seq<Annotation>
    var storage: map<string, string>
    var highlights: map<string, string>
    const preview: bool
    const bookAddress: string
    /** Whether the engine offers `annotations.removeAll`. */
    const canRemoveAll: bool

    constructor (preview: bool, bookAddress: string, canRemoveAll: bool, storage: map<string, string>)
      ensures annotations == [] && highlights == map[] && this.storage == storage
      ensures this.preview == preview && this.bookAddress == bookAddress && this.canRemoveAll == canRemoveAll
    {
      annotations := [];
      this.storage := storage;
      highlights := map[];
      this.preview := preview;
      this.bookAddress := bookAddress;
      this.canRemoveAll := canRemoveAll;
    }

    /** `clearAllAnnotations`: empties the highlights only where the engine
        can. */
    function Cleared(): map<string, string>
      reads this
    {
      if canRemoveAll then map[] else highlights
    }

    /** The load effect.  `ready` is "book metadata, wallet and rendition
        are all present"; without it nothing happens. */
    method Load(ready: bool, fetch: Fetch)
      modifies this`annotations, this`highlights
      ensures !ready || (!preview && !FetchRejected(fetch) && fetch.code != 200) ==>
        annotations == old(annotations) && highlights == old(highlights)
      ensures ready && preview ==>
        var key := PreviewKey(bookAddress);
        annotations == LoadedList(if key in storage then Some(storage[key]) else None)
        && highlights == WithHighlights(old(Cleared()), annotations)
      ensures ready && !preview && FetchRejected(fetch) ==>
        annotations == [] && highlights == old(Cleared())
      ensures ready && !preview && fetch.Fetched? && fetch.code == 200 ==>
        annotations == LoadedList(fetch.payload) && highlights == WithHighlights(old(Cleared()), annotations)
    {
      if !ready {
        return;
      }
      if preview {
        var key := PreviewKey(bookAddress);
        var list := LoadedList(if key in storage then Some(storage[key]) else None);
        annotations := list;
        highlights := WithHighlights(Cleared(), list);
        return;
      }
      if FetchRejected(fetch) {
        annotations := [];
        highlights := Cleared();
      } else if fetch.code == 200 {
        var list := LoadedList(fetch.payload);
        annotations := list;
        highlights := WithHighlights(Cleared(), list);
      }
    }

    /** `addAnnotation`: appends and highlights at once; preview mode stores
        the new list; a rejected remote save (no reply, or a status outside
        2xx) filters every annotation on that range out of the then-current
        list and removes its highlight, while a 2xx reply keeps the
        addition. */
    method Add(ready: bool, a: Annotation, response: Response)
      modifies this`annotations, this`storage, this`highlights
      ensures !ready ==> annotations == old(annotations) && storage == old(storage) && highlights == old(highlights)
      ensures ready && preview ==>
        annotations == old(annotations) + [a]
        && highlights == old(highlights)[a.cfiRange := a.color]
        && storage == old(storage)[PreviewKey(bookAddress) := EncodeAnnotations(old(annotations) + [a])]
      ensures ready && !preview && Resolved(response) ==>
        annotations == old(annotations) + [a] && storage == old(storage)
        && highlights == old(highlights)[a.cfiRange := a.color]
      ensures ready && !preview && !Resolved(response) ==>
        annotations == WithoutCfi(old(annotations) + [a], a.cfiRange) && storage == old(storage)
        && highlights == old(highlights)[a.cfiRange := a.color] - {a.cfiRange}
    {
      if !ready {
        return;
      }
      var newList := annotations + [a];
      annotations := newList;
      highlights := highlights[a.cfiRange := a.color];
      if preview {
        storage := storage[PreviewKey(bookAddress) := EncodeAnnotations(newList)];
      } else if !Resolved(response) {
        annotations := WithoutCfi(annotations, a.cfiRange);
        highlights := highlights - {a.cfiRange};
      }
    }

    /** `removeAnnotation(index, item)` for the item shown at `index`: the
        highlight goes at once; preview mode stores and shows the shortened
        list; remotely the list is shortened only on status 200, another 2xx
        reply leaves it, and a rejected save (no reply, or a status outside
        2xx) appends the item again and re-adds its highlight. */
    method Remove(ready: bool, index: nat, response: Response)
      requires index < |annotations|
      modifies this`annotations, this`storage, this`highlights
      ensures !ready ==> annotations == old(annotations) && storage == old(storage) && highlights == old(highlights)
      ensures ready ==> var item := old(annotations)[index];
        && (preview ==>
          annotations == RemoveAt(old(annotations), index)
          && storage == old(storage)[PreviewKey(bookAddress) := EncodeAnnotations(annotations)]
          && highlights == old(highlights) - {item.cfiRange})
        && (!preview && response == Status(200) ==>
          annotations == RemoveAt(old(annotations), index) && storage == old(storage)
          && highlights == old(highlights) - {item.cfiRange})
        && (!preview && Resolved(response) && response.code != 200 ==>
          annotations == old(annotations) && storage == old(storage)
          && highlights == old(highlights) - {item.cfiRange})
        && (!preview && !Resolved(response) ==>
          annotations == old(annotations) + [item] && storage == old(storage)
          && highlights == (old(highlights) - {item.cfiRange})[item.cfiRange := item.color])
    {
      if !ready {
        return;
      }
      var item := annotations[index];
      var newList := RemoveAt(annotations, index);
      highlights := highlights - {item.cfiRange};
      if preview {
        storage := storage[PreviewKey(bookAddress) := EncodeAnnotations(newList)];
        annotations := newList;
      } else {
        if !Resolved(response) {
          annotations := annotations + [item];
          highlights := highlights[item.cfiRange := item.color];
        } else if response.code == 200 {
          annotations := newList;
        }
      }
    }
  }
}
