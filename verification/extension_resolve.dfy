/**
 The editor extension's resolution policy: a time bucket, a grouped language
 table and the fixed priority chain language, then time, then fallback. The
 hour, the active editor's language id and the two trigger flags are explicit
 parameters instead of reads from the clock and the host's configuration.
 */
module ExtensionResolve {
  import opened Wrappers
  import opened Ascii
  import opened Hours

  const MorningCalm: string := "Vibe: Morning Calm"
  const AfternoonFocus: string := "Vibe: Afternoon Focus"
  const NightOwl: string := "Vibe: Night Owl"
  const PythonZen: string := "Vibe: Python Zen"
  const WebDevFlow: string := "Vibe: WebDev Flow"
  const DefaultDark: string := "Vibe: Default Dark"

  /** The language ids the WebDev Flow label groups together. */
  const WebDevIds: set<string> := {"javascript", "typescript", "html", "css"}

  /** Why a label was chosen; `Name` is the string the status tooltip shows. */
  datatype Trigger = Language | Time | Fallback {
    function Name(): string {
      match this
      case Language => "Language"
      case Time => "Time"
      case Fallback => "Fallback"
    }
  }

  /** One decision of the priority chain: the label to apply and the trigger behind it. */
  datatype Choice = Choice(themeLabel: string, trigger: Trigger)

  /** The label a bucket stands for. */
  function BucketLabel(b: Bucket): string {
    match b
    case Morning => MorningCalm
    case Afternoon => AfternoonFocus
    case Night => NightOwl
  }

  /** The time-of-day label for hour `h` (the clock read is the parameter). */
  function TimeLabel(h: Hour): (r: string)
    ensures r == MorningCalm <==> 6 <= h < 12
    ensures r == AfternoonFocus <==> 12 <= h < 18
    ensures r == NightOwl <==> h < 6 || 18 <= h
    ensures r == BucketLabel(BucketByQuarter(h))
  {
    if h >= 6 && h < 12 then MorningCalm
    else if h >= 12 && h < 18 then AfternoonFocus
    else NightOwl
  }

  /**
   The language label for an optional language id: nothing for a missing or
   empty id (both are falsy), otherwise a case-insensitive lookup in which the
   four web languages share one label.
   */
  function LanguageLabel(languageId: Option<string>): (r: Option<string>)
    ensures languageId == None || languageId == Some("") ==> r == None
    ensures r == None || r == Some(PythonZen) || r == Some(WebDevFlow)
  {
    match languageId
    case None => None
    case Some(id) =>
      if id == "" then None
      else
        var l := Lower(id);
        if l == "python" then Some(PythonZen)
        else if l in WebDevIds then Some(WebDevFlow)
        else None
  }

  /** The lookup sees an id only through its lower-case form. */
  lemma LanguageLabelCaseInsensitive(a: string, b: string)
    requires EqualIgnoringCase(a, b)
    ensures LanguageLabel(Some(a)) == LanguageLabel(Some(b))
  {
    SameLowerIff(a, b);
  }

  /** An id selects Python Zen exactly when it is "python" up to case. */
  lemma LanguageLabelPython(id: string)
    ensures LanguageLabel(Some(id)) == Some(PythonZen) <==> EqualIgnoringCase(id, "python")
  {
    LowerEqualsWord(id, "python");
  }

  /** The lookup as a table on the lower-case form; the empty id needs no special case there. */
  lemma LanguageLabelByLower(id: string)
    ensures LanguageLabel(Some(id)) == if Lower(id) == "python" then Some(PythonZen)
                                      else if Lower(id) in WebDevIds then Some(WebDevFlow)
                                      else None
  {
    if id == "" {
      assert Lower(id) == "";
      assert "" != "python" && "" !in WebDevIds;
    }
  }

  /** Every web language id is already lower case. */
  lemma WebDevIdsAreLower(w: string)
    requires w in WebDevIds
    ensures NoUpper(w)
  {
    assert w == "javascript" || w == "typescript" || w == "html" || w == "css";
  }

  /** The lower-case form of `id` is a web language exactly when `id` equals one ignoring case. */
  lemma LowerInWebDevIds(id: string)
    ensures Lower(id) in WebDevIds <==> exists w :: w in WebDevIds && EqualIgnoringCase(id, w)
  {
    if w :| w in WebDevIds && EqualIgnoringCase(id, w) {
      WebDevIdsAreLower(w);
      LowerEqualsWord(id, w);
    }
    if Lower(id) in WebDevIds {
      var l := Lower(id);
      WebDevIdsAreLower(l);
      LowerEqualsWord(id, l);
      assert EqualIgnoringCase(id, l);
    }
  }

  /** Each of the four web language ids, as written in the table, selects WebDev Flow. */
  lemma WebDevIdLabel(w: string)
    requires w in WebDevIds
    ensures LanguageLabel(Some(w)) == Some(WebDevFlow)
  {
    WebDevIdsAreLower(w);
    LowerOfNoUpper(w);
    LanguageLabelByLower(w);
  }

  /** An id selects WebDev Flow exactly when it is one of the four web languages up to case. */
  lemma LanguageLabelWebDev(id: string)
    ensures LanguageLabel(Some(id)) == Some(WebDevFlow)
        <==> exists w :: w in WebDevIds && EqualIgnoringCase(id, w)
  {
    LanguageLabelByLower(id);
    LowerInWebDevIds(id);
  }

  /** Every id that is not one of the five known ones, up to case, yields no label. */
  lemma LanguageLabelUnmapped(id: string)
    requires !EqualIgnoringCase(id, "python")
    requires forall w :: w in WebDevIds ==> !EqualIgnoringCase(id, w)
    ensures LanguageLabel(Some(id)) == None
  {
    LanguageLabelPython(id);
    LanguageLabelWebDev(id);
  }

  /**
   The priority chain of `checkTriggersAndApplyTheme`: a mapped language wins
   when its trigger is on, then the time bucket when its trigger is on, and the
   default dark label otherwise. It always produces exactly one choice.
   */
  function Resolve(enableLanguage: bool, enableTime: bool, languageId: Option<string>, h: Hour): (c: Choice)
    ensures enableLanguage && LanguageLabel(languageId).Some? ==>
              c == Choice(LanguageLabel(languageId).value, Language)
    ensures !(enableLanguage && LanguageLabel(languageId).Some?) && enableTime ==>
              c == Choice(TimeLabel(h), Time)
    ensures !(enableLanguage && LanguageLabel(languageId).Some?) && !enableTime ==>
              c == Choice(DefaultDark, Fallback)
  {
    if enableLanguage && LanguageLabel(languageId).Some? then
      Choice(LanguageLabel(languageId).value, Language)
    else if enableTime then
      Choice(TimeLabel(h), Time)
    else
      Choice(DefaultDark, Fallback)
  }

  /** Reference semantics of a fixed-priority policy: the first candidate present wins, else the default. */
  function FirstPresent(candidates: seq<Option<Choice>>, default: Choice): Choice {
    if |candidates| == 0 then default
    else if candidates[0].Some? then candidates[0].value
    else FirstPresent(candidates[1..], default)
  }

  /** What each trigger would offer on its own, highest priority first. */
  function Candidates(enableLanguage: bool, enableTime: bool, languageId: Option<string>, h: Hour): seq<Option<Choice>> {
    [ if enableLanguage then
        (match LanguageLabel(languageId)
         case Some(l) => Some(Choice(l, Language))
         case None => None)
      else None,
      if enableTime then Some(Choice(TimeLabel(h), Time)) else None ]
  }

  /** The chain is the first offer among language and time, falling back to the default dark label. */
  lemma ResolveIsFirstPresent(enableLanguage: bool, enableTime: bool, languageId: Option<string>, h: Hour)
    ensures Resolve(enableLanguage, enableTime, languageId, h)
         == FirstPresent(Candidates(enableLanguage, enableTime, languageId, h), Choice(DefaultDark, Fallback))
  {
    var cs := Candidates(enableLanguage, enableTime, languageId, h);
    var fallback := Choice(DefaultDark, Fallback);
    assert cs[1..][1..] == [];
    assert FirstPresent(cs[1..][1..], fallback) == fallback;
    if cs[0].None? {
      assert FirstPresent(cs, fallback) == FirstPresent(cs[1..], fallback);
    }
  }

  /** Three worked cases: a capitalised "Python", no editor at 14h, unmapped "ocaml" at 20h. */
  lemma ResolveExamples()
    ensures Resolve(true, true, Some("Python"), 3) == Choice(PythonZen, Language)
    ensures Resolve(true, true, None, 14) == Choice(AfternoonFocus, Time)
    ensures Resolve(true, true, Some("ocaml"), 20) == Choice(NightOwl, Time)
  {
    LanguageLabelPython("Python");
    LanguageLabelUnmapped("ocaml");
  }

  /** The six labels the extension can ever ask the host to apply. */
  const ExtensionLabels: set<string> :=
    {MorningCalm, AfternoonFocus, NightOwl, PythonZen, WebDevFlow, DefaultDark}

  /** Each trigger comes with labels of its own kind only, all of them known labels. */
  lemma ResolveTriggerMatchesLabel(enableLanguage: bool, enableTime: bool, languageId: Option<string>, h: Hour)
    ensures Resolve(enableLanguage, enableTime, languageId, h).themeLabel in ExtensionLabels
    ensures Resolve(enableLanguage, enableTime, languageId, h).trigger == Language <==>
              Resolve(enableLanguage, enableTime, languageId, h).themeLabel in {PythonZen, WebDevFlow}
    ensures Resolve(enableLanguage, enableTime, languageId, h).trigger == Time <==>
              Resolve(enableLanguage, enableTime, languageId, h).themeLabel in {MorningCalm, AfternoonFocus, NightOwl}
    ensures Resolve(enableLanguage, enableTime, languageId, h).trigger == Fallback <==>
              Resolve(enableLanguage, enableTime, languageId, h).themeLabel == DefaultDark
  {
  }

  /** A language match makes the hour and the time flag irrelevant. */
  lemma LanguageChoiceIgnoresTime(languageId: Option<string>, h1: Hour, h2: Hour, t1: bool, t2: bool)
    requires LanguageLabel(languageId).Some?
    ensures Resolve(true, t1, languageId, h1) == Resolve(true, t2, languageId, h2)
  {
  }

  /** With an unmapped id, an enabled language trigger decides as if it were disabled. */
  lemma UnmappedLanguageFallsThrough(languageId: Option<string>, enableTime: bool, h: Hour)
    requires LanguageLabel(languageId) == None
    ensures Resolve(true, enableTime, languageId, h) == Resolve(false, enableTime, languageId, h)
  {
  }

  /** The fallback is chosen exactly when neither trigger produces a label. */
  lemma FallbackIff(enableLanguage: bool, enableTime: bool, languageId: Option<string>, h: Hour)
    ensures Resolve(enableLanguage, enableTime, languageId, h).trigger == Fallback
        <==> !enableTime && !(enableLanguage && LanguageLabel(languageId).Some?)
  {
  }
}
