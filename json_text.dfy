/** The JSON text the reader writes into and reads back from local storage.

    The reader serialises three shapes with `JSON.stringify` and reads them
    back with `JSON.parse`: the bookmark record `{cfi, percent}`, the cached
    location list (an array of strings) and the annotation list (an array of
    `{cfiRange, text, color}` records).  This module gives each shape an
    encoder with the same text layout and a decoder that accepts that text,
    and proves that decoding what was encoded gives the value back. */
module JsonText {
  import opened Common

  // ---------------------------------------------------------------------
  // Strings

  function EscapeChar(c: char): string
  {
    if c == '"' || c == '\\' then ['\\', c] else [c]
  }

  /** The body of a JSON string literal for `s`. */
  function Escape(s: string): string
  {
    if s == [] then [] else EscapeChar(s[0]) + Escape(s[1..])
  }

  /** `JSON.stringify(s)` for a string. */
  function Quote(s: string): string
  {
    "\"" + Escape(s) + "\""
  }

  /** Reads an escaped string body up to its closing quote; gives the text
      and what follows the quote. */
  function ReadBody(t: string): (r: Option<(string, string)>)
    ensures r.Some? ==> |r.value.1| < |t|
    decreases |t|
  {
    if t == [] then None
    else if t[0] == '"' then Some(([], t[1..]))
    else if t[0] == '\\' then
      if |t| < 2 || !(t[1] == '"' || t[1] == '\\') then None
      else
        match ReadBody(t[2..])
        case None => None
        case Some(p) => Some(([t[1]] + p.0, p.1))
    else
      match ReadBody(t[1..])
      case None => None
      case Some(p) => Some(([t[0]] + p.0, p.1))
  }

  /** Reads one string literal at the front of `t`. */
  function ReadQuoted(t: string): (r: Option<(string, string)>)
    ensures r.Some? ==> |r.value.1| < |t|
  {
    if |t| > 0 && t[0] == '"' then ReadBody(t[1..]) else None
  }

  /** `t` with the literal prefix `p` removed, if it starts with it. */
  function StripPrefix(p: string, t: string): (r: Option<string>)
    ensures r.Some? ==> t == p + r.value
  {
    if |p| <= |t| && t[..|p|] == p then Some(t[|p|..]) else None
  }

  lemma {:induction false} StripPrefixOf(p: string, t: string)
    ensures StripPrefix(p, p + t) == Some(t)
  {
    assert (p + t)[..|p|] == p;
    assert (p + t)[|p|..] == t;
  }

  lemma {:induction false} ReadBodyOfEscape(s: string, rest: string)
    ensures ReadBody(Escape(s) + "\"" + rest) == Some((s, rest))
  {
    if s == [] {
      assert Escape(s) + "\"" + rest == "\"" + rest;
      assert ("\"" + rest)[1..] == rest;
    } else {
      var tail := Escape(s[1..]) + "\"" + rest;
      ReadBodyOfEscape(s[1..], rest);
      var t := Escape(s) + "\"" + rest;
      assert t == EscapeChar(s[0]) + tail;
      if s[0] == '"' || s[0] == '\\' {
        assert t[0] == '\\' && t[1] == s[0];
        assert t[2..] == tail;
      } else {
        assert t[0] == s[0];
        assert t[1..] == tail;
      }
      assert [s[0]] + s[1..] == s;
    }
  }

  /** A quoted string reads back as itself, whatever follows it. */
  lemma {:induction false} QuoteRoundTrip(s: string, rest: string)
    ensures ReadQuoted(Quote(s) + rest) == Some((s, rest))
  {
    var t := Quote(s) + rest;
    assert t[1..] == Escape(s) + "\"" + rest;
    ReadBodyOfEscape(s, rest);
  }

  // ---------------------------------------------------------------------
  // The bookmark record

  predicate IsNumberChar(c: char)
  {
    c in "0123456789.-+eE"
  }

  /** The characters `JSON.stringify` writes for a finite number. */
  predicate IsNumberText(s: string)
  {
    |s| > 0 && forall i :: 0 <= i < |s| ==> IsNumberChar(s[i])
  }

  /** A number as JSON renders it; the reader never computes with it. */
  type NumberText = s: string | IsNumberText(s) witness "0"

  /** `{cfi, percent}` as the reader stores it under `<book id>:bookmarks`. */
  datatype Bookmark = Bookmark(cfi: string, percent: NumberText)

  function EncodeBookmark(b: Bookmark): string
  {
    "{\"cfi\":" + Quote(b.cfi) + ",\"percent\":" + b.percent + "}"
  }

  function DecodeBookmark(t: string): Option<Bookmark>
  {
    match StripPrefix("{\"cfi\":", t)
    case None => None
    case Some(t1) =>
      match ReadQuoted(t1)
      case None => None
      case Some(p) =>
        match StripPrefix(",\"percent\":", p.1)
        case None => None
        case Some(t3) =>
          if |t3| >= 2 && t3[|t3| - 1] == '}' && IsNumberText(t3[..|t3| - 1])
          then Some(Bookmark(p.0, t3[..|t3| - 1]))
          else None
  }

  lemma {:induction false} BookmarkRoundTrip(b: Bookmark)
    ensures DecodeBookmark(EncodeBookmark(b)) == Some(b)
  {
    var t3 := b.percent + "}";
    var tail := ",\"percent\":" + t3;
    var t1 := Quote(b.cfi) + tail;
    assert EncodeBookmark(b) == "{\"cfi\":" + t1;
    StripPrefixOf("{\"cfi\":", t1);
    assert StripPrefix("{\"cfi\":", EncodeBookmark(b)) == Some(t1);
    QuoteRoundTrip(b.cfi, tail);
    assert ReadQuoted(t1) == Some((b.cfi, tail));
    StripPrefixOf(",\"percent\":", t3);
    assert StripPrefix(",\"percent\":", tail) == Some(t3);
    assert t3[..|t3| - 1] == b.percent;
    assert t3[|t3| - 1] == '}';
  }

  /** The empty string, which the reader writes to clear a bookmark, is not a bookmark. */
  lemma EmptyIsNoBookmark()
    ensures DecodeBookmark("") == None
  {
  }

  // ---------------------------------------------------------------------
  // The cached location list: an array of strings

  function EncodeStrings(xs: seq<string>): string
  {
    "[" + (if xs == [] then "]" else Quote(xs[0]) + EncodeStringsTail(xs[1..]))
  }

  function EncodeStringsTail(xs: seq<string>): string
  {
    if xs == [] then "]" else "," + Quote(xs[0]) + EncodeStringsTail(xs[1..])
  }

  function DecodeStrings(t: string): Option<seq<string>>
  {
    match StripPrefix("[", t)
    case None => None
    case Some(t1) =>
      if t1 == "]" then Some([])
      else
        match ReadQuoted(t1)
        case None => None
        case Some(p) =>
          match DecodeStringsTail(p.1)
          case None => None
          case Some(more) => Some([p.0] + more)
  }

  function DecodeStringsTail(t: string): Option<seq<string>>
    decreases |t|
  {
    if t == "]" then Some([])
    else if |t| > 0 && t[0] == ',' then
      match ReadQuoted(t[1..])
      case None => None
      case Some(p) =>
        match DecodeStringsTail(p.1)
        case None => None
        case Some(more) => Some([p.0] + more)
    else None
  }

  lemma {:induction false} StringsTailRoundTrip(xs: seq<string>)
    ensures DecodeStringsTail(EncodeStringsTail(xs)) == Some(xs)
  {
    if xs != [] {
      var rest := EncodeStringsTail(xs[1..]);
      var t := EncodeStringsTail(xs);
      assert t == "," + (Quote(xs[0]) + rest);
      assert t[1..] == Quote(xs[0]) + rest;
      QuoteRoundTrip(xs[0], rest);
      StringsTailRoundTrip(xs[1..]);
      assert [xs[0]] + xs[1..] == xs;
    }
  }

  lemma {:induction false} StringsRoundTrip(xs: seq<string>)
    ensures DecodeStrings(EncodeStrings(xs)) == Some(xs)
  {
    if xs != [] {
      var rest := EncodeStringsTail(xs[1..]);
      var body := Quote(xs[0]) + rest;
      assert EncodeStrings(xs) == "[" + body;
      StripPrefixOf("[", body);
      assert body[0] == '"';
      assert body != "]";
      QuoteRoundTrip(xs[0], rest);
      assert ReadQuoted(body) == Some((xs[0], rest));
      StringsTailRoundTrip(xs[1..]);
      assert [xs[0]] + xs[1..] == xs;
    } else {
      StripPrefixOf("[", "]");
    }
  }

  // ---------------------------------------------------------------------
  // The annotation list: an array of {cfiRange, text, color}

  datatype Annotation = Annotation(cfiRange: string, text: string, color: string)

  /** One `"key":"value"` member, the key given with its opening punctuation. */
  function Field(key: string, v: string): string
  {
    key + Quote(v)
  }

  function ReadField(key: string, t: string): (r: Option<(string, string)>)
    ensures r.Some? ==> |r.value.1| < |t|
  {
    match StripPrefix(key, t)
    case None => None
    case Some(t1) => ReadQuoted(t1)
  }

  lemma {:induction false} FieldRoundTrip(key: string, v: string, rest: string)
    ensures ReadField(key, Field(key, v) + rest) == Some((v, rest))
  {
    assert Field(key, v) + rest == key + (Quote(v) + rest);
    StripPrefixOf(key, Quote(v) + rest);
    QuoteRoundTrip(v, rest);
  }

  const CfiRangeKey := "{\"cfiRange\":"
  const TextKey := ",\"text\":"
  const ColorKey := ",\"color\":"

  function EncodeAnnotation(a: Annotation): string
  {
    Field(CfiRangeKey, a.cfiRange) + Field(TextKey, a.text) + Field(ColorKey, a.color) + "}"
  }

  function ReadAnnotation(t: string): (r: Option<(Annotation, string)>)
    ensures r.Some? ==> |r.value.1| < |t|
  {
    match ReadField(CfiRangeKey, t)
    case None => None
    case Some(p1) =>
      match ReadField(TextKey, p1.1)
      case None => None
      case Some(p2) =>
        match ReadField(ColorKey, p2.1)
        case None => None
        case Some(p3) =>
          match StripPrefix("}", p3.1)
          case None => None
          case Some(t4) => Some((Annotation(p1.0, p2.0, p3.0), t4))
  }

  lemma {:induction false} AnnotationLayout(a: Annotation, rest: string)
    ensures EncodeAnnotation(a) + rest
         == Field(CfiRangeKey, a.cfiRange) + (Field(TextKey, a.text) + (Field(ColorKey, a.color) + ("}" + rest)))
  {
  }

  lemma {:induction false} ReadAnnotationFields(a: Annotation, rest: string)
    ensures ReadAnnotation(Field(CfiRangeKey, a.cfiRange) + (Field(TextKey, a.text) + (Field(ColorKey, a.color) + ("}" + rest))))
         == Some((a, rest))
  {
    var s3 := "}" + rest;
    var s2 := Field(ColorKey, a.color) + s3;
    var s1 := Field(TextKey, a.text) + s2;
    FieldRoundTrip(CfiRangeKey, a.cfiRange, s1);
    FieldRoundTrip(TextKey, a.text, s2);
    FieldRoundTrip(ColorKey, a.color, s3);
    StripPrefixOf("}", rest);
  }

  /** One encoded annotation reads back as itself, whatever follows it. */
  lemma {:induction false} AnnotationRoundTrip(a: Annotation, rest: string)
    ensures ReadAnnotation(EncodeAnnotation(a) + rest) == Some((a, rest))
  {
    AnnotationLayout(a, rest);
    ReadAnnotationFields(a, rest);
  }

  /** `JSON.stringify(list)` for an annotation list. */
  function EncodeAnnotations(xs: seq<Annotation>): string
  {
    "[" + (if xs == [] then "]" else EncodeAnnotation(xs[0]) + EncodeAnnotationsTail(xs[1..]))
  }

  function EncodeAnnotationsTail(xs: seq<Annotation>): string
  {
    if xs == [] then "]" else "," + EncodeAnnotation(xs[0]) + EncodeAnnotationsTail(xs[1..])
  }

  function DecodeAnnotations(t: string): Option<seq<Annotation>>
  {
    match StripPrefix("[", t)
    case None => None
    case Some(t1) =>
      if t1 == "]" then Some([])
      else
        match ReadAnnotation(t1)
        case None => None
        case Some(p) =>
          match DecodeAnnotationsTail(p.1)
          case None => None
          case Some(more) => Some([p.0] + more)
  }

  function DecodeAnnotationsTail(t: string): Option<seq<Annotation>>
    decreases |t|
  {
    if t == "]" then Some([])
    else if |t| > 0 && t[0] == ',' then
      match ReadAnnotation(t[1..])
      case None => None
      case Some(p) =>
        match DecodeAnnotationsTail(p.1)
        case None => None
        case Some(more) => Some([p.0] + more)
    else None
  }

  lemma {:induction false} AnnotationsTailStep(t: string, a: Annotation, rest: string, more: seq<Annotation>)
    requires |t| > 0 && t[0] == ','
    requires ReadAnnotation(t[1..]) == Some((a, rest))
    requires DecodeAnnotationsTail(rest) == Some(more)
    ensures DecodeAnnotationsTail(t) == Some([a] + more)
  {
  }

  lemma {:induction false} AnnotationsTailRoundTrip(xs: seq<Annotation>)
    ensures DecodeAnnotationsTail(EncodeAnnotationsTail(xs)) == Some(xs)
  {
    if xs != [] {
      var rest := EncodeAnnotationsTail(xs[1..]);
      var item := EncodeAnnotation(xs[0]) + rest;
      var t := EncodeAnnotationsTail(xs);
      assert t == "," + item;
      assert t[1..] == item;
      AnnotationRoundTrip(xs[0], rest);
      AnnotationsTailRoundTrip(xs[1..]);
      AnnotationsTailStep(t, xs[0], rest, xs[1..]);
      assert [xs[0]] + xs[1..] == xs;
    }
  }

  lemma {:induction false} AnnotationsHeadStep(body: string, a: Annotation, rest: string, more: seq<Annotation>)
    requires |body| > 0 && body[0] == '{'
    requires ReadAnnotation(body) == Some((a, rest))
    requires DecodeAnnotationsTail(rest) == Some(more)
    ensures DecodeAnnotations("[" + body) == Some([a] + more)
  {
    StripPrefixOf("[", body);
    assert body != "]";
  }

  lemma {:induction false} AnnotationStartsWithBrace(a: Annotation, rest: string)
    ensures |EncodeAnnotation(a) + rest| > 0 && (EncodeAnnotation(a) + rest)[0] == '{'
  {
    var f := Field(CfiRangeKey, a.cfiRange);
    var tail := Field(TextKey, a.text) + (Field(ColorKey, a.color) + ("}" + rest));
    AnnotationLayout(a, rest);
    assert f[0] == CfiRangeKey[0] == '{';
    assert (f + tail)[0] == f[0];
  }

  lemma {:induction false} NonEmptyAnnotationsRoundTrip(xs: seq<Annotation>)
    requires xs != []
    ensures DecodeAnnotations(EncodeAnnotations(xs)) == Some(xs)
  {
    var a, more := xs[0], xs[1..];
    var rest := EncodeAnnotationsTail(more);
    var body := EncodeAnnotation(a) + rest;
    assert EncodeAnnotations(xs) == "[" + body;
    assert DecodeAnnotations("[" + body) == Some([a] + more) by {
      AnnotationStartsWithBrace(a, rest);
      AnnotationRoundTrip(a, rest);
      AnnotationsTailRoundTrip(more);
      AnnotationsHeadStep(body, a, rest, more);
    }
    assert [a] + more == xs;
  }

  /** What the reader stores for an annotation list reads back as that list. */
  lemma {:induction false} AnnotationsRoundTrip(xs: seq<Annotation>)
    ensures DecodeAnnotations(EncodeAnnotations(xs)) == Some(xs)
  {
    if xs == [] {
      StripPrefixOf("[", "]");
    } else {
      NonEmptyAnnotationsRoundTrip(xs);
    }
  }

}
