/** The read-aloud panel (src/components/ui/TextToSpeech/TextToSpeechPlayer.jsx):
    the selected text it reads, the voice it prefers, and the
    playing/paused/error state its buttons and the utterance's callbacks move
    through.  The browser's speech engine is represented by the requests the
    panel sends it and by its `speaking`/`paused` flags, passed in. */
module Speech {
  import opened Common

  datatype Voice = Voice(name: string, lang: string, isDefault: bool)

  // ---------------------------------------------------------------------
  // Voice preference

  /** An English (US or UK) voice from Google or Microsoft, or the default one. */
  predicate IsPreferred(v: Voice): (b: bool)
    ensures b ==> exists i :: 0 <= i <= |v.lang| - 5 && v.lang[i..][..5] in {"en-US", "en-GB"}
    ensures b && !v.isDefault ==>
      || (exists i :: 0 <= i <= |v.name| - 6 && v.name[i..][..6] == "Google")
      || (exists i :: 0 <= i <= |v.name| - 9 && v.name[i..][..9] == "Microsoft")
  {
    ContainsIffOccurs(v.lang, "en-US");
    ContainsIffOccurs(v.lang, "en-GB");
    ContainsIffOccurs(v.name, "Google");
    ContainsIffOccurs(v.name, "Microsoft");
    (Contains(v.lang, "en-US") || Contains(v.lang, "en-GB"))
    && (Contains(v.name, "Google") || Contains(v.name, "Microsoft") || v.isDefault)
  }

  /** `voices.findIndex(IsPreferred)`: the first preferred position, or -1. */
  function PreferredIndex(voices: seq<Voice>): (i: int)
    ensures -1 <= i < |voices|
    ensures i == -1 <==> forall j :: 0 <= j < |voices| ==> !IsPreferred(voices[j])
    ensures i >= 0 ==> IsPreferred(voices[i]) && forall j :: 0 <= j < i ==> !IsPreferred(voices[j])
  {
    if voices == [] then -1
    else if IsPreferred(voices[0]) then 0
    else
      var k := PreferredIndex(voices[1..]);
      if k == -1 then -1 else k + 1
  }

  /** `voices.find(IsPreferred)` */
  function FindPreferred(voices: seq<Voice>): (r: Option<Voice>)
    ensures r.None? <==> forall j :: 0 <= j < |voices| ==> !IsPreferred(voices[j])
    ensures r.Some? ==> r.value in voices && IsPreferred(r.value)
    ensures forall k :: 0 <= k < |voices| && IsPreferred(voices[k]) && (forall j :: 0 <= j < k ==> !IsPreferred(voices[j])) ==>
      r == Some(voices[k])
  {
    var i := PreferredIndex(voices);
    if i == -1 then None else Some(voices[i])
  }

  /** `voices.find(v => v.default)` */
  function FindDefault(voices: seq<Voice>): (r: Option<Voice>)
    ensures r.None? <==> forall j :: 0 <= j < |voices| ==> !voices[j].isDefault
    ensures r.Some? ==> r.value in voices && r.value.isDefault
    ensures forall k :: 0 <= k < |voices| && voices[k].isDefault && (forall j :: 0 <= j < k ==> !voices[j].isDefault) ==>
      r == Some(voices[k])
  {
    if voices == [] then None
    else if voices[0].isDefault then Some(voices[0])
    else
      var r := FindDefault(voices[1..]);
      assert forall k :: 0 < k < |voices| ==> voices[k] == voices[1..][k - 1];
      r
  }

  /** The voice `loadVoices` picks from a non-empty list: the first preferred
      voice, else the first default voice, else the first voice. */
  function PreferredVoice(voices: seq<Voice>): (v: Voice)
    requires voices != []
    ensures v in voices
    ensures FindPreferred(voices).Some? ==> v == FindPreferred(voices).value
    ensures FindPreferred(voices).None? && FindDefault(voices).Some? ==> v.isDefault
    ensures FindPreferred(voices).None? ==>
      forall k :: 0 <= k < |voices| && voices[k].isDefault && (forall j :: 0 <= j < k ==> !voices[j].isDefault) ==>
        v == voices[k]
    ensures FindPreferred(voices).None? && FindDefault(voices).None? ==> v == voices[0]
  {
    match FindPreferred(voices)
    case Some(p) => p
    case None =>
      match FindDefault(voices)
      case Some(d) => d
      case None => voices[0]
  }

  /** Whenever some voice qualifies, the pick is a qualifying voice that no
      earlier voice in the list beats. */
  lemma PreferredVoiceIsFirstQualifying(voices: seq<Voice>, k: nat)
    requires k < |voices| && IsPreferred(voices[k])
    ensures IsPreferred(PreferredVoice(voices))
    ensures 0 <= PreferredIndex(voices) <= k && voices[PreferredIndex(voices)] == PreferredVoice(voices)
  {
  }

  /** `availableVoices.find(v => v.name === name)` */
  function FindVoice(voices: seq<Voice>, name: string): (r: Option<Voice>)
    ensures r.None? <==> forall j :: 0 <= j < |voices| ==> voices[j].name != name
    ensures r.Some? ==> r.value in voices && r.value.name == name
    ensures forall k :: 0 <= k < |voices| && voices[k].name == name && (forall j :: 0 <= j < k ==> voices[j].name != name) ==>
      r == Some(voices[k])
  {
    if voices == [] then None
    else if voices[0].name == name then Some(voices[0])
    else
      var r := FindVoice(voices[1..], name);
      assert forall k :: 0 < k < |voices| ==> voices[k] == voices[1..][k - 1];
      r
  }

  // ---------------------------------------------------------------------
  // Selected text

  /** The characters `String.prototype.trim` removes that the model knows:
      space, tab, the line breaks, vertical tab, form feed, no-break space and
      the byte-order mark. */
  predicate IsWhitespace(c: char)
  {
    c == ' ' || c == '\t' || c == '\n' || c == '\r' || c == '\U{000B}' || c == '\U{000C}'
    || c == '\U{00A0}' || c == '\U{FEFF}'
  }

  function TrimStart(s: string): (r: string)
    ensures |r| <= |s|
    ensures r == [] || !IsWhitespace(r[0])
    ensures forall j :: 0 <= j < |s| - |r| ==> IsWhitespace(s[j])
  {
    if s != [] && IsWhitespace(s[0]) then TrimStart(s[1..]) else s
  }

  function TrimEnd(s: string): (r: string)
    ensures |r| <= |s|
    ensures r == [] || !IsWhitespace(r[|r| - 1])
    ensures forall j :: |r| <= j < |s| ==> IsWhitespace(s[j])
  {
    if s != [] && IsWhitespace(s[|s| - 1]) then TrimEnd(s[..|s| - 1]) else s
  }

  /** `s.trim()` */
  function Trim(s: string): (r: string)
    ensures r == [] || !IsWhitespace(r[|r| - 1])
    ensures |r| <= |s|
  {
    TrimEnd(TrimStart(s))
  }

  /** The trimmed text neither starts nor ends with whitespace. */
  lemma TrimHasNoOuterWhitespace(s: string)
    ensures Trim(s) == [] || (!IsWhitespace(Trim(s)[0]) && !IsWhitespace(Trim(s)[|Trim(s)| - 1]))
  {
    TrimEndIsPrefix(TrimStart(s));
  }

  lemma {:induction false} TrimStartIsSuffix(s: string)
    ensures TrimStart(s) == s[|s| - |TrimStart(s)|..]
  {
    if s != [] && IsWhitespace(s[0]) {
      TrimStartIsSuffix(s[1..]);
    }
  }

  lemma {:induction false} TrimEndIsPrefix(s: string)
    ensures TrimEnd(s) == s[..|TrimEnd(s)|]
  {
    if s != [] && IsWhitespace(s[|s| - 1]) {
      TrimEndIsPrefix(s[..|s| - 1]);
    }
  }

  /** `trim` keeps a contiguous middle of `s`: it removes whitespace from the
      two ends and nothing else. */
  lemma TrimIsMiddle(s: string)
    ensures var a := |s| - |TrimStart(s)|;
      a + |Trim(s)| <= |s| && Trim(s) == s[a..a + |Trim(s)|]
  {
    TrimStartIsSuffix(s);
    TrimEndIsPrefix(TrimStart(s));
  }

  /** Trimming twice is trimming once. */
  lemma TrimIdempotent(s: string)
    ensures Trim(Trim(s)) == Trim(s)
  {
    var t := Trim(s);
    TrimHasNoOuterWhitespace(s);
    assert TrimStart(t) == t;
    assert TrimEnd(t) == t;
  }

  /** One displayed document: whether it has a window, and its selection
      (None where `getSelection()` gives null). */
  datatype Content = Content(hasWindow: bool, selection: Option<string>)

  /** `selection?.toString().trim() || ""` for one document with a window. */
  function ContentText(c: Content): (t: string)
    ensures t != [] ==> c.hasWindow && c.selection.Some?
  {
    if c.hasWindow && c.selection.Some? then Trim(c.selection.value) else ""
  }

  /** The position of the first document with a non-empty trimmed
      selection, or -1. */
  function SelectionIndex(contents: seq<Content>): (i: int)
    ensures -1 <= i < |contents|
    ensures i == -1 <==> forall j :: 0 <= j < |contents| ==> ContentText(contents[j]) == ""
    ensures i >= 0 ==> ContentText(contents[i]) != "" && forall j :: 0 <= j < i ==> ContentText(contents[j]) == ""
  {
    if contents == [] then -1
    else if ContentText(contents[0]) != "" then 0
    else
      var k := SelectionIndex(contents[1..]);
      if k == -1 then -1 else k + 1
  }

  /** The first non-empty trimmed selection among the documents, else "". */
  function FirstSelection(contents: seq<Content>): (t: string)
    ensures t == "" <==> forall j :: 0 <= j < |contents| ==> ContentText(contents[j]) == ""
    ensures forall k ::
      && 0 <= k < |contents| && ContentText(contents[k]) != ""
      && (forall j :: 0 <= j < k ==> ContentText(contents[j]) == "")
      ==> t == ContentText(contents[k])
  {
    var i := SelectionIndex(contents);
    if i == -1 then "" else ContentText(contents[i])
  }

  /** `getSelectedText`: walks the documents and returns at the first
      non-empty selection; "" without a rendition. */
  method GetSelectedText(hasRendition: bool, contents: seq<Content>) returns (text: string)
    ensures !hasRendition ==> text == ""
    ensures hasRendition ==> text == FirstSelection(contents)
    ensures text == Trim(text)
  {
    if !hasRendition {
      return "";
    }
    var i := 0;
    while i < |contents|
      invariant 0 <= i <= |contents|
      invariant forall j :: 0 <= j < i ==> ContentText(contents[j]) == ""
    {
      var c := contents[i];
      if c.hasWindow {
        var t := if c.selection.Some? then Trim(c.selection.value) else "";
        if t != "" {
          TrimIdempotent(c.selection.value);
          return t;
        }
      }
      i := i + 1;
    }
    return "";
  }

  // ---------------------------------------------------------------------
  // The panel

  /** What an utterance is created with. */
  datatype Settings = Settings(text: string, rate: real, volume: real, voice: Option<Voice>)

  /** What the panel asks of the speech engine. */
  datatype Request = Speak(settings: Settings) | Cancel | Pause | Resume

  /** `SpeechSynthesisUtterance`: the panel changes its rate and volume in place. */
  class Utterance {
    var text: string
    var rate: real
    var volume: real
    var voice: Option<Voice>

    constructor (s: Settings)
      ensures Current() == s
    {
      text, rate, volume, voice := s.text, s.rate, s.volume, s.voice;
    }

    function Current(): Settings
      reads this
    {
      Settings(text, rate, volume, voice)
    }
  }

  /** The panel's value state, gathered so contracts can say "only this changed". */
  datatype View = View(
    isPlaying: bool,
    isPaused: bool,
    speechError: string,
    selectedText: string,
    rate: real,
    volume: real,
    voice: Option<Voice>,
    availableVoices: seq<Voice>,
    voicesLoaded: bool,
    isPlayingRef: bool,
    requests: seq<Request>,
    pendingRespeak: Option<Settings>)

  /** The error text of `onerror`: the event's error code, or "Unknown error". */
  function ErrorMessage(code: string): (m: string)
    ensures |m| > |"Error: "| && m[..7] == "Error: "
  {
    "Error: " + (if code == "" then "Unknown error" else code)
  }

  /** The voice a re-speak after a voice change uses, as written: `speakText`
      is the closure of the render the change happened in, so it carries the
      voice from before the change. */
  function RespeakSettingsAsWritten(before: Settings, chosen: Option<Voice>): (s: Settings)
    ensures s.text == before.text && s.rate == before.rate && s.volume == before.volume
    ensures s.voice == before.voice
  {
    before
  }

  /** The voice a re-speak should use: the one just chosen. */
  function RespeakSettings(before: Settings, chosen: Option<Voice>): (s: Settings)
    ensures s.text == before.text && s.rate == before.rate && s.volume == before.volume
    ensures s.voice == chosen
  {
    before.(voice := chosen)
  }

  /** Choosing voice B while voice A plays re-speaks with A as written, and
      with B as intended. */
  lemma RespeakUsesStaleVoice()
    ensures var a := Voice("A", "en-US", true);
      var b := Voice("B", "en-GB", false);
      var before := Settings("text", 1.0, 0.8, Some(a));
      RespeakSettingsAsWritten(before, Some(b)).voice == Some(a)
      && RespeakSettings(before, Some(b)).voice == Some(b)
      && RespeakSettingsAsWritten(before, Some(b)) != RespeakSettings(before, Some(b))
  {
    var a := Voice("A", "en-US", true);
    var b := Voice("B", "en-GB", false);
    assert a != b;
  }

  class SpeechPanel {
    var isPlaying: bool
    var isPaused: bool
    var speechError: string
    var selectedText: string
    var rate: real
    var volume: real
    var voice: Option<Voice>
    var availableVoices: seq<Voice>
    var voicesLoaded: bool
    /** `isPlayingRef.current` */
    var isPlayingRef: bool
    /** `utteranceRef.current` */
    var utterance: Utterance?
    /** Whether `window.speechSynthesis` exists. */
    const hasEngine: bool
    /** Everything sent to the engine, oldest first. */
    var requests: seq<Request>
    /** A re-speak scheduled by a voice change (the 50 ms timer). */
    var pendingRespeak: Option<Settings>

    function Snapshot(): View
      reads this
    {
      View(isPlaying, isPaused, speechError, selectedText, rate, volume, voice,
        availableVoices, voicesLoaded, isPlayingRef, requests, pendingRespeak)
    }

    /** Never playing and paused at once. */
    predicate Valid()
      reads this
    {
      !(isPlaying && isPaused)
    }

    /** The settings `speakText` of the current render reads. */
    function CurrentSettings(): Settings
      reads this
    {
      Settings(selectedText, rate, volume, voice)
    }

    constructor (hasEngine: bool)
      ensures Valid() && this.hasEngine == hasEngine && utterance == null
      ensures Snapshot() == View(false, false, "", "", 1.0, 0.8, None, [], false, false, [], None)
    {
      isPlaying, isPaused, speechError, selectedText := false, false, "", "";
      rate, volume, voice := 1.0, 0.8, None;
      availableVoices, voicesLoaded, isPlayingRef := [], false, false;
      utterance := null;
      this.hasEngine := hasEngine;
      requests, pendingRespeak := [], None;
    }

    /** `loadVoices`: records a non-empty list and, when no voice is chosen
        yet, picks the preferred one; a throwing `getVoices` only marks the
        voices as loaded. */
    method LoadVoices(voices: seq<Voice>, getVoicesThrows: bool) returns (loaded: bool)
      requires Valid()
      modifies this
      ensures Valid() && utterance == old(utterance)
      ensures getVoicesThrows ==> !loaded && Snapshot() == old(Snapshot()).(voicesLoaded := true)
      ensures !getVoicesThrows && voices == [] ==> !loaded && Snapshot() == old(Snapshot())
      ensures !getVoicesThrows && voices != [] ==> (loaded && Snapshot() == old(Snapshot()).(
        availableVoices := voices, voicesLoaded := true,
        voice := if old(voice).None? then Some(PreferredVoice(voices)) else old(voice)))
    {
      if getVoicesThrows {
        voicesLoaded := true;
        return false;
      }
      if voices == [] {
        return false;
      }
      availableVoices := voices;
      voicesLoaded := true;
      if voice.None? {
        voice := Some(PreferredVoice(voices));
      }
      loaded := true;
    }

    /** Creates and speaks an utterance with `s`.  Empty text only sets the
        "No text selected" error.  Without an engine the `speak` call throws
        (after the utterance has been created) and the panel shows
        `thrownMessage`. */
    method SpeakWith(s: Settings, thrownMessage: string)
      requires Valid()
      modifies this
      ensures Valid()
      ensures s.text == "" ==> (utterance == old(utterance)
        && Snapshot() == old(Snapshot()).(speechError := "No text selected"))
      ensures s.text != "" ==> fresh(utterance) && utterance.Current() == s
      ensures s.text != "" && hasEngine ==>
        Snapshot() == old(Snapshot()).(requests := old(requests) + [Cancel, Speak(s)])
      ensures s.text != "" && !hasEngine ==>
        Snapshot() == old(Snapshot()).(speechError := "Error: " + thrownMessage, isPlayingRef := false)
    {
      if s.text == "" {
        speechError := "No text selected";
        return;
      }
      if hasEngine {
        requests := requests + [Cancel];
      }
      var u := new Utterance(s);
      utterance := u;
      if hasEngine {
        requests := requests + [Speak(s)];
      } else {
        speechError := "Error: " + thrownMessage;
        isPlayingRef := false;
      }
    }

    /** The play button: `speakText` with the current settings. */
    method SpeakText(thrownMessage: string)
      requires Valid()
      modifies this
      ensures Valid()
      ensures selectedText == "" ==> (utterance == old(utterance)
        && Snapshot() == old(Snapshot()).(speechError := "No text selected"))
      ensures old(selectedText) != "" && hasEngine ==> (fresh(utterance)
        && utterance.Current() == old(CurrentSettings())
        && Snapshot() == old(Snapshot()).(requests := old(requests) + [Cancel, Speak(old(CurrentSettings()))]))
      ensures old(selectedText) != "" && !hasEngine ==> (fresh(utterance)
        && utterance.Current() == old(CurrentSettings())
        && Snapshot() == old(Snapshot()).(speechError := "Error: " + thrownMessage, isPlayingRef := false))
    {
      SpeakWith(CurrentSettings(), thrownMessage);
    }

    /** `utterance.onstart` */
    method OnStart()
      modifies this`isPlayingRef, this`isPlaying, this`isPaused, this`speechError
      ensures Valid()
      ensures Snapshot() == old(Snapshot()).(isPlayingRef := true, isPlaying := true, isPaused := false, speechError := "")
    {
      isPlayingRef, isPlaying, isPaused, speechError := true, true, false, "";
    }

    /** `utterance.onend`: playback just stops; nothing further is read. */
    method OnEnd()
      modifies this`isPlayingRef, this`isPlaying, this`isPaused
      ensures Valid()
      ensures Snapshot() == old(Snapshot()).(isPlayingRef := false, isPlaying := false, isPaused := false)
    {
      isPlayingRef, isPlaying, isPaused := false, false, false;
    }

    /** `utterance.onerror` with the event's error code ("" when it has none). */
    method OnError(code: string)
      modifies this`isPlayingRef, this`isPlaying, this`isPaused, this`speechError
      ensures Valid() && speechError != ""
      ensures Snapshot() == old(Snapshot()).(isPlayingRef := false, isPlaying := false, isPaused := false,
        speechError := ErrorMessage(code))
    {
      isPlayingRef, isPlaying, isPaused := false, false, false;
      speechError := ErrorMessage(code);
    }

    /** Pauses only while the engine is speaking. */
    method HandlePause(engineSpeaking: bool)
      modifies this`requests, this`isPlayingRef, this`isPaused, this`isPlaying
      ensures Valid()
      ensures hasEngine && engineSpeaking ==> (Snapshot() == old(Snapshot()).(
        requests := old(requests) + [Pause], isPlayingRef := false, isPaused := true, isPlaying := false))
      ensures !(hasEngine && engineSpeaking) ==> Snapshot() == old(Snapshot())
      requires Valid()
    {
      if hasEngine && engineSpeaking {
        requests := requests + [Pause];
        isPlayingRef, isPaused, isPlaying := false, true, false;
      }
    }

    /** Resumes only while the engine is paused. */
    method HandleResume(enginePaused: bool)
      requires Valid()
      modifies this`requests, this`isPlayingRef, this`isPaused, this`isPlaying
      ensures Valid()
      ensures hasEngine && enginePaused ==> (Snapshot() == old(Snapshot()).(
        requests := old(requests) + [Resume], isPlayingRef := true, isPlaying := true, isPaused := false))
      ensures !(hasEngine && enginePaused) ==> Snapshot() == old(Snapshot())
    {
      if hasEngine && enginePaused {
        requests := requests + [Resume];
        isPlayingRef, isPlaying, isPaused := true, true, false;
      }
    }

    /** Stops unconditionally and forgets the utterance. */
    method HandleStop()
      modifies this`requests, this`isPlayingRef, this`isPaused, this`isPlaying, this`speechError, this`utterance
      ensures Valid() && utterance == null
      ensures Snapshot() == old(Snapshot()).(
        isPlayingRef := false, isPlaying := false, isPaused := false, speechError := "",
        requests := old(requests) + (if hasEngine then [Cancel] else []))
    {
      isPlayingRef := false;
      if hasEngine {
        requests := requests + [Cancel];
      }
      isPlaying, isPaused, speechError := false, false, "";
      utterance := null;
    }

    /** Records the volume and, while playing, changes the current utterance's. */
    method HandleVolumeChange(v: real)
      requires Valid()
      modifies this`volume, utterance
      ensures Valid() && utterance == old(utterance)
      ensures Snapshot() == old(Snapshot()).(volume := v)
      ensures utterance != null && isPlayingRef ==> utterance.Current() == old(utterance.Current()).(volume := v)
      ensures utterance != null && !isPlayingRef ==> utterance.Current() == old(utterance.Current())
    {
      volume := v;
      if utterance != null && isPlayingRef {
        utterance.volume := v;
      }
    }

    /** Records the rate and, while playing, changes the current utterance's. */
    method HandleRateChange(r: real)
      requires Valid()
      modifies this`rate, utterance
      ensures Valid() && utterance == old(utterance)
      ensures Snapshot() == old(Snapshot()).(rate := r)
      ensures utterance != null && isPlayingRef ==> utterance.Current() == old(utterance.Current()).(rate := r)
      ensures utterance != null && !isPlayingRef ==> utterance.Current() == old(utterance.Current())
    {
      rate := r;
      if utterance != null && isPlayingRef {
        utterance.rate := r;
      }
    }

    /** `handleVoiceChange` as written: selects the named voice and, while
        playing, stops and schedules a re-speak with the settings the
        handler's render saw, voice included. */
    method HandleVoiceChangeAsWritten(name: string)
      requires Valid()
      modifies this
      ensures Valid()
      ensures voice == FindVoice(old(availableVoices), name)
      ensures old(isPlayingRef) ==> (utterance == null
        && Snapshot() == old(Snapshot()).(
          voice := FindVoice(old(availableVoices), name),
          isPlayingRef := false, isPlaying := false, isPaused := false, speechError := "",
          requests := old(requests) + (if hasEngine then [Cancel] else []),
          pendingRespeak := Some(RespeakSettingsAsWritten(old(CurrentSettings()), FindVoice(old(availableVoices), name)))))
      ensures !old(isPlayingRef) ==> (Snapshot() == old(Snapshot()).(voice := FindVoice(old(availableVoices), name))
        && utterance == old(utterance))
    {
      var before := CurrentSettings();
      voice := FindVoice(availableVoices, name);
      if isPlayingRef {
        HandleStop();
        pendingRespeak := Some(RespeakSettingsAsWritten(before, voice));
      }
    }

    /** `handleVoiceChange` as intended: the re-speak uses the chosen voice. */
    method HandleVoiceChange(name: string)
      requires Valid()
      modifies this
      ensures Valid()
      ensures voice == FindVoice(old(availableVoices), name)
      ensures old(isPlayingRef) ==> (utterance == null
        && Snapshot() == old(Snapshot()).(
          voice := FindVoice(old(availableVoices), name),
          isPlayingRef := false, isPlaying := false, isPaused := false, speechError := "",
          requests := old(requests) + (if hasEngine then [Cancel] else []),
          pendingRespeak := Some(RespeakSettings(old(CurrentSettings()), FindVoice(old(availableVoices), name))))
        && pendingRespeak.value.voice == voice)
      ensures !old(isPlayingRef) ==> (Snapshot() == old(Snapshot()).(voice := FindVoice(old(availableVoices), name))
        && utterance == old(utterance))
    {
      var before := CurrentSettings();
      voice := FindVoice(availableVoices, name);
      if isPlayingRef {
        HandleStop();
        pendingRespeak := Some(RespeakSettings(before, voice));
      }
    }

    /** The 50 ms timer of a voice change firing. */
    method RespeakTimerFired(thrownMessage: string)
      requires Valid()
      modifies this
      ensures Valid() && pendingRespeak == None
      ensures old(pendingRespeak).None? ==> Snapshot() == old(Snapshot()) && utterance == old(utterance)
      ensures old(pendingRespeak).Some? && old(pendingRespeak).value.text == "" ==>
        utterance == old(utterance)
        && Snapshot() == old(Snapshot()).(pendingRespeak := None, speechError := "No text selected")
      ensures old(pendingRespeak).Some? && old(pendingRespeak).value.text != "" ==>
        fresh(utterance) && utterance.Current() == old(pendingRespeak).value
      ensures old(pendingRespeak).Some? && old(pendingRespeak).value.text != "" && hasEngine ==>
        Snapshot() == old(Snapshot()).(pendingRespeak := None,
          requests := old(requests) + [Cancel, Speak(old(pendingRespeak).value)])
      ensures old(pendingRespeak).Some? && old(pendingRespeak).value.text != "" && !hasEngine ==>
        Snapshot() == old(Snapshot()).(pendingRespeak := None,
          speechError := "Error: " + thrownMessage, isPlayingRef := false)
    {
      if pendingRespeak.Some? {
        var s := pendingRespeak.value;
        pendingRespeak := None;
        SpeakWith(s, thrownMessage);
      }
    }

    /** The selection monitor's timer: stores the selection and stops
        playback when it differs from the text being read. */
    method SelectionSettled(hasRendition: bool, contents: seq<Content>)
      requires Valid()
      modifies this`selectedText, this`requests, this`isPlayingRef, this`isPaused, this`isPlaying,
        this`speechError, this`utterance
      ensures Valid()
      ensures selectedText == (if hasRendition then FirstSelection(contents) else "")
      ensures old(isPlayingRef) && selectedText != old(selectedText) ==> (utterance == null
        && Snapshot() == old(Snapshot()).(selectedText := selectedText,
          isPlayingRef := false, isPlaying := false, isPaused := false, speechError := "",
          requests := old(requests) + (if hasEngine then [Cancel] else [])))
      ensures !(old(isPlayingRef) && selectedText != old(selectedText)) ==>
        Snapshot() == old(Snapshot()).(selectedText := selectedText) && utterance == old(utterance)
    {
      var text := GetSelectedText(hasRendition, contents);
      var previous := selectedText;
      selectedText := text;
      if isPlayingRef && text != previous {
        HandleStop();
      }
    }
  }
}
