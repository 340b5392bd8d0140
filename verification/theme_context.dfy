/**
 The web app's theme context: a fixed registry of eleven themes, an hour
 bucket and a per-language table that both return registry keys, and a guarded
 `setTheme`. React state becomes an immutable record and each state update a
 transition function; the hour is a parameter instead of a clock read.
 */
module ThemeContext {
  import opened Wrappers
  import opened Ascii
  import opened Hours

  /** Colour values are opaque strings. */
  datatype Colors = Colors(background: string, foreground: string, primary: string, secondary: string)

  datatype Theme = Theme(name: string, colors: Colors)

  /** The registry, keyed by theme identifier. */
  const Themes: map<string, Theme> := map[
    "morning-calm" := Theme("Morning Calm", Colors("#BBDEFB", "#0D47A1", "#1976D2", "#0D47A1")),
    "afternoon-focus" := Theme("Afternoon Focus", Colors("#FFE0B2", "#EF6C00", "#FF9800", "#EF6C00")),
    "night-owl" := Theme("Night Owl", Colors("#0D47A1", "#E3F2FD", "#1976D2", "#E3F2FD")),
    "python-zen" := Theme("Python Zen", Colors("#2E3440", "#88C0D0", "#81A1C1", "#8FBCBB")),
    "javascript-jive" := Theme("JavaScript Jive", Colors("#282C34", "#F7DF1E", "#E5C100", "#F7DF1E")),
    "typescript-tide" := Theme("TypeScript Tide", Colors("#007ACC", "#FFFFFF", "#005A9E", "#FFFFFF")),
    "html-hue" := Theme("HTML Hue", Colors("#E34C26", "#FFFFFF", "#BF360C", "#FFFFFF")),
    "css-cascade" := Theme("CSS Cascade", Colors("#264DE4", "#FFFFFF", "#1A237E", "#FFFFFF")),
    "rust-rush" := Theme("Rust Rush", Colors("#F5F5F5", "#BF360C", "#FF7043", "#BF360C")),
    "go-groove" := Theme("Go Groove", Colors("#E3F2FD", "#0D47A1", "#1976D2", "#0D47A1")),
    "java-jive" := Theme("Java Jive", Colors("#FFF3E0", "#E65100", "#FFB74D", "#E65100"))
  ]

  /** The registry holds eleven themes under eleven distinct keys. */
  lemma RegistrySize()
    ensures |Themes| == 11
  {
    var k3 := {"morning-calm", "afternoon-focus", "night-owl"};
    assert |k3| == 3;
    var k6 := k3 + {"python-zen", "javascript-jive", "typescript-tide"};
    assert |k6| == 6 by { assert k3 !! {"python-zen", "javascript-jive", "typescript-tide"}; }
    var k9 := k6 + {"html-hue", "css-cascade", "rust-rush"};
    assert |k9| == 9 by { assert k6 !! {"html-hue", "css-cascade", "rust-rush"}; }
    var k11 := k9 + {"go-groove", "java-jive"};
    assert |k11| == 11 by { assert k9 !! {"go-groove", "java-jive"}; }
    assert Themes.Keys == k11;
  }

  /** The display names of the three time themes. */
  lemma BucketThemeNames()
    ensures Themes["morning-calm"].name == "Morning Calm"
    ensures Themes["afternoon-focus"].name == "Afternoon Focus"
    ensures Themes["night-owl"].name == "Night Owl"
  {
  }

  /** The registry key a bucket stands for. */
  function BucketKey(b: Bucket): string {
    match b
    case Morning => "morning-calm"
    case Afternoon => "afternoon-focus"
    case Night => "night-owl"
  }

  /** `getTimeBasedTheme` for hour `h`: a registry key chosen by the hour bucket. */
  function TimeTheme(h: Hour): (k: string)
    ensures k in Themes
    ensures k == "morning-calm" <==> 6 <= h < 12
    ensures k == "afternoon-focus" <==> 12 <= h < 18
    ensures k == "night-owl" <==> h < 6 || 18 <= h
    ensures k == BucketKey(BucketByQuarter(h))
  {
    if h >= 6 && h < 12 then "morning-calm"
    else if h >= 12 && h < 18 then "afternoon-focus"
    else "night-owl"
  }

  /** `getLanguageBasedTheme`: a case-insensitive switch with one theme per language. */
  function LanguageTheme(language: string): (r: Option<string>)
    ensures r.Some? ==> r.value in Themes
  {
    var l := Lower(language);
    if l == "python" then Some("python-zen")
    else if l == "javascript" then Some("javascript-jive")
    else if l == "typescript" then Some("typescript-tide")
    else if l == "html" then Some("html-hue")
    else if l == "css" then Some("css-cascade")
    else if l == "rust" then Some("rust-rush")
    else if l == "go" then Some("go-groove")
    else if l == "java" then Some("java-jive")
    else None
  }

  /** The eight supported language ids and, position by position, the keys they select. */
  const SupportedLanguages: seq<string> :=
    ["python", "javascript", "typescript", "html", "css", "rust", "go", "java"]
  const LanguageKeys: seq<string> :=
    ["python-zen", "javascript-jive", "typescript-tide", "html-hue", "css-cascade", "rust-rush", "go-groove", "java-jive"]

  /** The language table as data: supported id to theme key. */
  function LanguageTable(): (t: map<string, string>)
    ensures forall i :: 0 <= i < |SupportedLanguages| ==>
              SupportedLanguages[i] in t && t[SupportedLanguages[i]] == LanguageKeys[i]
    ensures t.Keys == set i | 0 <= i < |SupportedLanguages| :: SupportedLanguages[i]
  {
    SupportedLanguagesDistinct();
    map i | 0 <= i < |SupportedLanguages| :: SupportedLanguages[i] := LanguageKeys[i]
  }

  /** No id occurs twice among the supported languages. */
  lemma SupportedLanguagesDistinct()
    ensures forall i, j :: 0 <= i < |SupportedLanguages| && 0 <= j < |SupportedLanguages| && i != j ==>
              SupportedLanguages[i] != SupportedLanguages[j]
  {
    forall i, j | 0 <= i < |SupportedLanguages| && 0 <= j < |SupportedLanguages| && i != j
      ensures SupportedLanguages[i] != SupportedLanguages[j]
    {
      LanguageKeysDistinct(i, j);
    }
  }

  /** The switch is a lookup of the lower-case id in the table. */
  lemma LanguageThemeByTable(language: string)
    ensures LanguageTheme(language) ==
              if Lower(language) in LanguageTable() then Some(LanguageTable()[Lower(language)]) else None
  {
    var t := LanguageTable();
    var l := Lower(language);
    assert l in t <==> l in SupportedLanguages;
  }

  /** Each supported id selects its own key. */
  lemma SupportedLanguagesMap(i: int)
    requires 0 <= i < |SupportedLanguages|
    ensures LanguageTheme(SupportedLanguages[i]) == Some(LanguageKeys[i])
  {
    SupportedLanguageIsLower(i);
    LowerOfNoUpper(SupportedLanguages[i]);
    LanguageThemeByTable(SupportedLanguages[i]);
  }

  /** The eight keys are pairwise distinct: no two languages, `javascript` and `java` included, share a theme. */
  lemma LanguageKeysDistinct(i: int, j: int)
    requires 0 <= i < |LanguageKeys| && 0 <= j < |LanguageKeys| && i != j
    ensures LanguageKeys[i] != LanguageKeys[j]
    ensures SupportedLanguages[i] != SupportedLanguages[j]
  {
  }

  /** The lookup sees the id only through its lower-case form. */
  lemma LanguageThemeCaseInsensitive(a: string, b: string)
    requires EqualIgnoringCase(a, b)
    ensures LanguageTheme(a) == LanguageTheme(b)
  {
    SameLowerIff(a, b);
  }

  /** Every supported id is already lower case. */
  lemma SupportedLanguageIsLower(i: int)
    requires 0 <= i < |SupportedLanguages|
    ensures NoUpper(SupportedLanguages[i])
  {
  }

  /** A language yields a theme exactly when it is one of the eight supported ids up to case. */
  lemma LanguageThemeDefinedIff(language: string)
    ensures LanguageTheme(language).Some?
        <==> exists i :: 0 <= i < |SupportedLanguages| && EqualIgnoringCase(language, SupportedLanguages[i])
  {
    LanguageThemeByTable(language);
    if i :| 0 <= i < |SupportedLanguages| && EqualIgnoringCase(language, SupportedLanguages[i]) {
      SupportedLanguageIsLower(i);
      LowerEqualsWord(language, SupportedLanguages[i]);
      assert Lower(language) in LanguageTable();
    }
    if Lower(language) in LanguageTable() {
      var i :| 0 <= i < |SupportedLanguages| && SupportedLanguages[i] == Lower(language);
      SupportedLanguageIsLower(i);
      LowerEqualsWord(language, SupportedLanguages[i]);
    }
  }

  /** Two ids that select the same theme are the same id up to case. */
  lemma LanguageThemeInjective(a: string, b: string)
    requires LanguageTheme(a).Some? && LanguageTheme(a) == LanguageTheme(b)
    ensures EqualIgnoringCase(a, b)
  {
    LanguageThemeByTable(a);
    LanguageThemeByTable(b);
    var i :| 0 <= i < |SupportedLanguages| && SupportedLanguages[i] == Lower(a);
    var j :| 0 <= j < |SupportedLanguages| && SupportedLanguages[j] == Lower(b);
    if i != j {
      LanguageKeysDistinct(i, j);
    }
    SameLowerIff(a, b);
  }

  /** The context's trigger; the type admits three values, only `time` is ever assigned. */
  datatype WebTrigger = TimeTrigger | LanguageTrigger | Manual {
    function Name(): string {
      match this
      case TimeTrigger => "time"
      case LanguageTrigger => "language"
      case Manual => "manual"
    }
  }

  datatype WebState = WebState(current: Theme, trigger: WebTrigger)

  /** The current theme is one of the registry's themes. */
  predicate Valid(s: WebState) {
    s.current in Themes.Values
  }

  /** The initial React state: the morning theme, triggered by time. */
  function Init(): (s: WebState)
    ensures Valid(s)
    ensures s.current == Themes["morning-calm"] && s.trigger == TimeTrigger
    ensures s.current.name == "Morning Calm" && s.trigger.Name() == "time"
  {
    WebState(Themes["morning-calm"], TimeTrigger)
  }

  /**
   `setTheme`: a registered key selects its theme; any other key changes nothing.
   The trigger is never touched.
   */
  function SetTheme(s: WebState, key: string): (r: WebState)
    ensures key in Themes ==> r.current == Themes[key]
    ensures key !in Themes ==> r == s
    ensures r.trigger == s.trigger
    ensures Valid(s) ==> Valid(r)
  {
    if key in Themes then s.(current := Themes[key]) else s
  }

  /** `updateThemeByTime`: the bucket's theme becomes current and the trigger becomes `time`. */
  function UpdateThemeByTime(s: WebState, h: Hour): (r: WebState)
    ensures r.current == Themes[TimeTheme(h)]
    ensures r.trigger == TimeTrigger
    ensures Valid(r)
  {
    SetTheme(s, TimeTheme(h)).(trigger := TimeTrigger)
  }

  /** The provider after mounting: the initial state followed by the effect's immediate update. */
  function Mount(h: Hour): (s: WebState)
    ensures Valid(s) && s.trigger == TimeTrigger
    ensures s.current == Themes[BucketKey(BucketByQuarter(h))]
  {
    UpdateThemeByTime(Init(), h)
  }

  /**
   The code editor's effect on a language change: a mapped language selects its
   theme through `setTheme`; the trigger keeps its value, whatever it was.
   */
  function SelectLanguage(s: WebState, language: string): (r: WebState)
    ensures r.trigger == s.trigger
    ensures LanguageTheme(language).Some? ==> r.current == Themes[LanguageTheme(language).value]
    ensures LanguageTheme(language).None? ==> r == s
    ensures Valid(s) ==> Valid(r)
  {
    match LanguageTheme(language)
    case Some(k) => SetTheme(s, k)
    case None => s
  }

  /** What can change the context: a direct `setTheme`, a minute tick, a language selection. */
  datatype WebEvent = SetKey(key: string) | Tick(hour: Hour) | LanguageSelected(language: string)

  function WebStep(s: WebState, e: WebEvent): WebState {
    match e
    case SetKey(k) => SetTheme(s, k)
    case Tick(h) => UpdateThemeByTime(s, h)
    case LanguageSelected(l) => SelectLanguage(s, l)
  }

  function WebRun(s: WebState, events: seq<WebEvent>): WebState
    decreases |events|
  {
    if |events| == 0 then s else WebRun(WebStep(s, events[0]), events[1..])
  }

  /**
   From the mounted provider, whatever happens, the current theme stays a
   registry theme and the trigger stays `time`: no path sets `language`.
   */
  lemma {:induction false} WebRunKeepsInvariant(s: WebState, events: seq<WebEvent>)
    requires Valid(s) && s.trigger == TimeTrigger
    ensures Valid(WebRun(s, events))
    ensures WebRun(s, events).trigger == TimeTrigger
    decreases |events|
  {
    if |events| > 0 {
      var next := WebStep(s, events[0]);
      assert Valid(next) && next.trigger == TimeTrigger;
      WebRunKeepsInvariant(next, events[1..]);
    }
  }

  /** The invariant holds in every state reachable from the mounted provider. */
  lemma ReachableStatesValid(h: Hour, events: seq<WebEvent>)
    ensures Valid(WebRun(Mount(h), events))
    ensures WebRun(Mount(h), events).trigger == TimeTrigger
  {
    WebRunKeepsInvariant(Mount(h), events);
  }

  // ---------------------------------------------------------------------------
  // The guard as written. `themes[k]` reads a property of a plain object, so it
  // is also truthy for every name the object inherits from Object.prototype.
  // For "__proto__" the value is Object.prototype itself, an ordinary object
  // that React stores as the new state. Every other inherited name holds a
  // function, and React's state setter calls a function as an updater on the
  // previous state, with no receiver.
  // ---------------------------------------------------------------------------

  /** The function-valued properties every plain object inherits from Object.prototype. */
  const InheritedMethods: set<string> := {
    "constructor", "hasOwnProperty", "isPrototypeOf", "propertyIsEnumerable",
    "toLocaleString", "toString", "valueOf",
    "__defineGetter__", "__defineSetter__", "__lookupGetter__", "__lookupSetter__"}

  /** No inherited name is a registry key. */
  lemma InheritedNamesNotRegistered(key: string)
    requires key == "__proto__" || key in InheritedMethods
    ensures key !in Themes
  {
  }

  /** What `themes[k]` reads: an own theme, the inherited prototype object, or an inherited method. */
  datatype Property = OwnTheme(theme: Theme) | PrototypeObject | PrototypeMethod(name: string)

  /** The property lookup of the source: own keys first, then the names inherited from Object.prototype. */
  function PropertyAsWritten(key: string): (r: Option<Property>)
    ensures key in Themes ==> r == Some(OwnTheme(Themes[key]))
    ensures r.None? <==> key !in Themes && key != "__proto__" && key !in InheritedMethods
    ensures key !in Themes && key == "__proto__" ==> r == Some(PrototypeObject)
    ensures key !in Themes && key in InheritedMethods ==> r == Some(PrototypeMethod(key))
  {
    if key in Themes then Some(OwnTheme(Themes[key]))
    else if key == "__proto__" then Some(PrototypeObject)
    else if key in InheritedMethods then Some(PrototypeMethod(key))
    else None
  }

  /**
   A value React may hold as the current theme once the written guard has let an
   inherited name through: a registry theme, Object.prototype, a string or a
   boolean primitive, or a String or Boolean wrapper object.
   */
  datatype Stored =
    | Registered(theme: Theme)
    | ObjectPrototype
    | Text(text: string)
    | BoxedText(text: string)
    | Boolean(flag: bool)
    | BoxedBoolean(flag: bool)

  /** The stored values that are not objects. */
  predicate IsPrimitive(v: Stored) {
    v.Text? || v.Boolean?
  }

  datatype RawState = RawState(current: Stored, trigger: WebTrigger)

  /** The result of one `setTheme` call: the next state, or a TypeError thrown out of React's update. */
  datatype SetOutcome = Done(state: RawState) | TypeError

  /**
   An inherited method called as an updater with no receiver and the previous
   state as its one argument (None: it throws a TypeError).
   - `constructor` is `Object(prev)`: an object comes back unchanged, a
     primitive comes back in its wrapper object.
   - `toString` reports the missing receiver as "[object Undefined]".
   - `isPrototypeOf` answers `false` for a primitive argument before it looks
     at its receiver; for an object argument it converts the missing receiver
     and throws.
   - Every other method converts the missing receiver to an object first, and throws.
   */
  function CallAsUpdater(name: string, prev: Stored): (r: Option<Stored>)
    ensures r.None? <==> (name != "constructor" && name != "toString" &&
                          (name != "isPrototypeOf" || !IsPrimitive(prev)))
    ensures name == "constructor" && !IsPrimitive(prev) ==> r == Some(prev)
    ensures name == "constructor" && prev.Text? ==> r == Some(BoxedText(prev.text))
    ensures name == "constructor" && prev.Boolean? ==> r == Some(BoxedBoolean(prev.flag))
    ensures name == "toString" ==> r == Some(Text("[object Undefined]"))
    ensures name == "isPrototypeOf" && IsPrimitive(prev) ==> r == Some(Boolean(false))
    ensures r.Some? ==> !r.value.Registered? || r.value == prev
  {
    if name == "constructor" then
      (match prev
       case Text(t) => Some(BoxedText(t))
       case Boolean(b) => Some(BoxedBoolean(b))
       case _ => Some(prev))
    else if name == "toString" then Some(Text("[object Undefined]"))
    else if name == "isPrototypeOf" then
      (if IsPrimitive(prev) then Some(Boolean(false)) else None)
    else None
  }

  /** `setTheme` exactly as written: whatever the truthy lookup returns is handed to React's state setter. */
  function SetThemeAsWritten(s: RawState, key: string): (r: SetOutcome)
    ensures key in Themes ==> r == Done(s.(current := Registered(Themes[key])))
    ensures key !in Themes && key != "__proto__" && key !in InheritedMethods ==> r == Done(s)
    ensures key == "__proto__" ==> r == Done(s.(current := ObjectPrototype))
    ensures key == "toString" ==> r == Done(s.(current := Text("[object Undefined]")))
    ensures key == "isPrototypeOf" && IsPrimitive(s.current) ==> r == Done(s.(current := Boolean(false)))
    ensures key == "constructor" ==> r.Done? && (IsPrimitive(s.current) <==> r.state.current != s.current)
    ensures (key in InheritedMethods && key != "constructor" && key != "toString" &&
             (key != "isPrototypeOf" || !IsPrimitive(s.current))) ==> r == TypeError
    ensures r.Done? ==> r.state.trigger == s.trigger
  {
    match PropertyAsWritten(key)
    case Some(OwnTheme(t)) => Done(s.(current := Registered(t)))
    case Some(PrototypeObject) => Done(s.(current := ObjectPrototype))
    case Some(PrototypeMethod(m)) =>
      (match CallAsUpdater(m, s.current)
       case Some(v) => Done(s.(current := v))
       case None => TypeError)
    case None => Done(s)
  }

  /**
   Keys outside the registry get through the written guard: "__proto__" and
   "toString" leave the current value outside the registry, and
   "hasOwnProperty" throws instead of being ignored. Whether "isPrototypeOf"
   throws depends on the state before it: after "toString" it stores `false`,
   which a following "constructor" wraps in a Boolean object.
   */
  lemma SetThemeAsWrittenEscapesRegistry()
    ensures "__proto__" !in Themes && "toString" !in Themes && "hasOwnProperty" !in Themes
    ensures SetThemeAsWritten(RawState(Registered(Themes["morning-calm"]), TimeTrigger), "__proto__")
         == Done(RawState(ObjectPrototype, TimeTrigger))
    ensures SetThemeAsWritten(RawState(Registered(Themes["morning-calm"]), TimeTrigger), "toString")
         == Done(RawState(Text("[object Undefined]"), TimeTrigger))
    ensures SetThemeAsWritten(RawState(Registered(Themes["morning-calm"]), TimeTrigger), "hasOwnProperty")
         == TypeError
    ensures SetThemeAsWritten(RawState(Registered(Themes["morning-calm"]), TimeTrigger), "isPrototypeOf")
         == TypeError
    ensures SetThemeAsWritten(RawState(Text("[object Undefined]"), TimeTrigger), "isPrototypeOf")
         == Done(RawState(Boolean(false), TimeTrigger))
    ensures SetThemeAsWritten(RawState(Boolean(false), TimeTrigger), "constructor")
         == Done(RawState(BoxedBoolean(false), TimeTrigger))
  {
    InheritedNamesNotRegistered("__proto__");
    InheritedNamesNotRegistered("toString");
    InheritedNamesNotRegistered("hasOwnProperty");
    InheritedNamesNotRegistered("isPrototypeOf");
    InheritedNamesNotRegistered("constructor");
  }

  /** The corrected `SetTheme` above ignores every inherited name. */
  lemma SetThemeIgnoresInherited(s: WebState, key: string)
    requires key == "__proto__" || key in InheritedMethods
    ensures SetTheme(s, key) == s
  {
    InheritedNamesNotRegistered(key);
  }
}
