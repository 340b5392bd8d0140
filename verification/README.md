# Vibe Coder theme resolution, modelled in Dafny

Vibe Coder switches a colour theme by time of day or by the programming language
being edited. It ships twice: as an editor extension and as a demo web app. Both
decide which theme should be active in the same way, but the details differ, so
each variant is modelled on its own:

- **Extension** (`src/extension.ts`). `ExtensionResolve` holds the three-bucket
  time label, the case-insensitive language lookup and the fixed priority chain
  (language, then time, then the default dark theme). The lookup groups JS, TS,
  HTML and CSS under a single "WebDev Flow" label. `ExtensionState` holds
  `applyTheme` and the rest as transitions over one immutable record:
  - the host's `workbench.colorTheme` setting;
  - the status bar text, tooltip and visibility;
  - a count of settings writes;
  - the log;
  - the interval handle.

  `ExtensionState` also covers log-level gating, the interval reset in the
  configuration handler, `activate` and `deactivate`.
- **Web app** (`vibe-coder/src/contexts/ThemeContext.tsx`). `ThemeContext` holds
  the registry of eleven themes, the hour bucket and the per-language table,
  both of which return registry keys. It also holds the guarded `setTheme`, the
  time update, the initial state, and the code editor's "select the language's
  theme" effect. The main invariant is that the current theme is always a
  registry theme, and that the trigger stays `time` in every reachable state.
- `Variants` records where the two variants agree: the same hour buckets, and
  Python. It also records where they diverge: grouped versus per-language web
  themes, and Rust, Go and Java, which only the web app maps.

Shared helpers:
- `Ascii` models `toLowerCase` on the ASCII capitals and gives an independent
  definition of case-insensitive equality.
- `Hours` has the `Hour` type (0..23, the range `getHours()` returns) and a
  reference bucketing by quarters of the day.
- `Wrappers` has `Option`, used for `null` and `undefined`.

Inputs that the source reads from its environment become parameters:
- the hour, instead of `new Date().getHours()`;
- the active editor's language id (`Option<string>`);
- the `vibe-coder` configuration (`ExtensionState.Config`, with defaults
  already applied, as `config.get(key, default)` returns it);
- whether the host accepts a settings write (`writeOk`).

A write that the host accepts updates the modelled setting, and the next read
returns the written label (see "## Left out" for when the host breaks this). A
rejected write changes nothing except the attempt count.

Points where the code behaves differently from what one might expect:
- An unrecognised `logLevel` value such as `"verbose"` or `"OFF"` lets every
  message through, as `"debug"` does, because the comparisons at
  `src/extension.ts:10-11` are exact (`ExtensionState.UnknownLevelIsDebug`). It
  does not fall back to the default `"info"`.
- The extension has no manual trigger. The web app's trigger type admits
  `language` and `manual`, but only `time` is ever assigned: its language path
  goes through `setTheme`, which does not touch the trigger. The web app has no
  fallback at all.
- The web app's `setTheme` keeps the current theme inside the registry only
  when its guard is read as an own-property test; see Findings. In the
  extension, the host setting may hold any theme the user chose until the
  extension first writes it, so the registry invariant is stated for the status
  bar text (`ExtensionState.StatusOk`), not for the setting.

## Model

| member | source | states |
|---|---|---|
| Ascii.Lower | src/extension.ts:52 | ASCII `toLowerCase`: same length, each character mapped on its own, and no capital left in the result |
| Ascii.LowerIdempotent | vibe-coder/src/contexts/ThemeContext.tsx:137 | lower-casing an already lower-cased id changes nothing |
| Ascii.SameLowerIff | vibe-coder/src/contexts/ThemeContext.tsx:137 | two ids have the same lower-case form exactly when they are equal ignoring case, character by character |
| Ascii.LowerEqualsWord | src/extension.ts:52-59 | comparing the lower-cased id with a lower-case `case` word is the same as comparing the id with that word ignoring case |
| ExtensionResolve.TimeLabel | src/extension.ts:37-47 | hours 6..11 give Morning Calm, 12..17 give Afternoon Focus, and every other hour gives Night Owl (each an if-and-only-if); the result agrees with the quarter-of-day reference bucketing |
| ExtensionResolve.LanguageLabel | src/extension.ts:49-63 | a missing or empty id yields null; the only labels ever returned are Python Zen and WebDev Flow |
| ExtensionResolve.LanguageLabelCaseInsensitive | src/extension.ts:52 | ids that are equal ignoring case get the same label |
| ExtensionResolve.LanguageLabelByLower | src/extension.ts:49-63 | the lookup is a table on the lower-cased id; the empty-id check agrees with that table |
| ExtensionResolve.LanguageLabelPython | src/extension.ts:53-54 | an id selects Python Zen if and only if it is "python" ignoring case |
| ExtensionResolve.LanguageLabelWebDev | src/extension.ts:55-59 | an id selects WebDev Flow if and only if it equals javascript, typescript, html or css ignoring case |
| ExtensionResolve.WebDevIdLabel | src/extension.ts:55-59 | each of the four grouped ids selects WebDev Flow |
| ExtensionResolve.LanguageLabelUnmapped | src/extension.ts:60-61 | every other id yields null, with no failure |
| ExtensionResolve.Resolve | src/extension.ts:65-90 | the priority chain: a mapped language with its trigger on wins with `Language`; otherwise the enabled time trigger gives the bucket label with `Time`; otherwise Default Dark with `Fallback` |
| ExtensionResolve.ResolveIsFirstPresent | src/extension.ts:73-89 | the chain equals the generic "first candidate present, else the default" policy over the language offer and the time offer |
| ExtensionResolve.ResolveExamples | src/extension.ts:65-90 | "Python" gives Python Zen/Language; no editor at 14h gives Afternoon Focus/Time; unmapped "ocaml" at 20h gives Night Owl/Time |
| ExtensionResolve.ResolveTriggerMatchesLabel | src/extension.ts:73-89 | every chosen label is one of the six extension labels; the trigger is `Language`, `Time` or `Fallback` exactly when the label is of that kind |
| ExtensionResolve.LanguageChoiceIgnoresTime | src/extension.ts:74-79 | once the language matches, neither the hour nor the time flag affects the choice |
| ExtensionResolve.UnmappedLanguageFallsThrough | src/extension.ts:74-86 | with an unmapped id, an enabled language trigger decides exactly as a disabled one would |
| ExtensionResolve.FallbackIff | src/extension.ts:82-89 | the fallback is chosen if and only if the time trigger is off and no enabled language match exists |
| ExtensionState.Emits | src/extension.ts:6-14 | "off" emits nothing; "info" suppresses exactly the debug messages; every other level value emits everything |
| ExtensionState.LogLevelsNested | src/extension.ts:10-11 | what "off" emits, "info" emits, and what "info" emits, every other level emits |
| ExtensionState.UnknownLevelIsDebug | src/extension.ts:8-13 | an unrecognised level behaves like "debug" and differs from the default "info" on debug messages |
| ExtensionState.ApplyTheme | src/extension.ts:16-35 | one write attempt exactly when the setting differs from the label. After a success, or when the label was already set, the setting, text and visibility follow the label, and the tooltip is `Tooltip`: "Vibe Coder: " followed by the label and the trigger name in parentheses (src/extension.ts:24,32). After a failure, all of them keep their old values. Timers are untouched and the log only grows |
| ExtensionState.ApplyTwiceWritesOnce | src/extension.ts:16-35 | applying one label twice, the first time successfully, costs one write if the label was new and none otherwise; the tooltip names the second trigger (with the single settings scope of the model) |
| ExtensionState.FailedWriteIsSilent | src/extension.ts:20-28 | with logging off, a rejected write changes nothing but the attempt count: no error escapes and the status item is unchanged |
| ExtensionState.FailureNotLoggedAtInfo | src/extension.ts:21-27 | at the default "info" level, the attempt is logged but the failure (a debug message) is not |
| ExtensionState.Check | src/extension.ts:65-90 | one check makes at most one write and leaves the timers alone; when the write is accepted, the setting becomes the resolved label |
| ExtensionState.CheckTwiceWritesAtMostOnce | src/extension.ts:16-35 | two checks in an unchanged context, the first accepted, make no write in the second (with the single settings scope of the model) |
| ExtensionState.CheckKeepsStatusOk | src/extension.ts:23-32 | a check only ever puts an extension label in the status bar |
| ExtensionState.ResetInterval | src/extension.ts:114-123 | the old handle no longer runs; a handle exists if and only if the time trigger is on; its period is minutes × 60 × 1000 ms; the new handle is fresh; at most one timer runs; theme state is untouched |
| ExtensionState.OnConfigChange | src/extension.ts:108-127 | a change outside `vibe-coder` changes nothing. A `vibe-coder` change resets the interval (present if and only if the time trigger is on, with the configured period, old handle gone) and then checks once. The timer and status invariants are kept |
| ExtensionState.Activate | src/extension.ts:92-141 | after activation, one timer runs if and only if the time trigger is on, with the configured period; at most one write happened; the start message is logged first when info messages are emitted |
| ExtensionState.Deactivate | src/extension.ts:143-148 | the running interval is cleared, but the handle variable keeps its old value |
| ExtensionState.DeactivateLeavesNoCallback | src/extension.ts:143-146 | after `deactivate` no timer runs, and a later timer tick changes nothing |
| ExtensionState.ActivateRunDeactivate | src/extension.ts:136-146 | after activation and any sequence of events, `deactivate` leaves no timer running |
| ExtensionState.StepKeepsInvariant | src/extension.ts:100-128 | `Step` dispatches the three handlers: an editor change runs a check, a `vibe-coder` configuration change resets the interval and checks, and a timer tick checks only while a timer runs. Each of them keeps the timer bookkeeping sound and the status bar on extension labels |
| ExtensionState.RunKeepsInvariant | src/extension.ts:100-128 | for any sequence of events after activation: at most one interval timer runs, it is the one the handle names, and the status bar shows only extension labels |
| ThemeContext.RegistrySize | vibe-coder/src/contexts/ThemeContext.tsx:13-113 | the registry holds eleven themes |
| ThemeContext.TimeTheme | vibe-coder/src/contexts/ThemeContext.tsx:129-134 | hours 6..11 give morning-calm, 12..17 give afternoon-focus, and every other hour gives night-owl (each an if-and-only-if); the key is in the registry and agrees with the quarter-of-day bucketing |
| ThemeContext.LanguageTheme | vibe-coder/src/contexts/ThemeContext.tsx:136-157 | every non-null result is a registry key |
| ThemeContext.LanguageThemeByTable | vibe-coder/src/contexts/ThemeContext.tsx:136-157 | the switch equals a lookup of the lower-cased id in the eight-entry language table |
| ThemeContext.SupportedLanguagesMap | vibe-coder/src/contexts/ThemeContext.tsx:138-153 | python, javascript, typescript, html, css, rust, go and java each select their own key, from python-zen to java-jive |
| ThemeContext.LanguageKeysDistinct | vibe-coder/src/contexts/ThemeContext.tsx:140-153 | the eight ids are pairwise distinct, and so are their eight keys (javascript and java do not collide) |
| ThemeContext.LanguageThemeCaseInsensitive | vibe-coder/src/contexts/ThemeContext.tsx:137 | ids that are equal ignoring case select the same theme |
| ThemeContext.LanguageThemeDefinedIff | vibe-coder/src/contexts/ThemeContext.tsx:136-157 | a language yields a theme if and only if it is one of the eight supported ids ignoring case; any other id yields null |
| ThemeContext.LanguageThemeInjective | vibe-coder/src/contexts/ThemeContext.tsx:137-153 | two ids that select the same theme are the same id ignoring case |
| ThemeContext.Init | vibe-coder/src/contexts/ThemeContext.tsx:126-127 | the initial state is the registry's morning-calm theme with trigger `time`, and so a registry theme |
| ThemeContext.SetTheme | vibe-coder/src/contexts/ThemeContext.tsx:159-163 | a registry key makes its theme current; any other key changes nothing; the trigger is never touched; the registry invariant is kept |
| ThemeContext.UpdateThemeByTime | vibe-coder/src/contexts/ThemeContext.tsx:166-170 | the current theme becomes the bucket's theme for the hour, and the trigger becomes `time` |
| ThemeContext.Mount | vibe-coder/src/contexts/ThemeContext.tsx:165-177 | after the effect's immediate update, the current theme is the hour bucket's theme with trigger `time` |
| ThemeContext.SelectLanguage | vibe-coder/src/components/CodeEditor.tsx:21-26 | a mapped language makes its theme current and an unmapped one changes nothing; in both cases the trigger keeps its value |
| ThemeContext.WebRunKeepsInvariant | vibe-coder/src/contexts/ThemeContext.tsx:159-170 | through any sequence of `setTheme` calls, ticks and language selections, the current theme stays a registry theme and the trigger stays `time` |
| ThemeContext.ReachableStatesValid | vibe-coder/src/contexts/ThemeContext.tsx:126-177 | every state reachable from the mounted provider holds a registry theme with trigger `time` |
| ThemeContext.PropertyAsWritten | vibe-coder/src/contexts/ThemeContext.tsx:160 | the source's property lookup on a plain object: own keys give their theme, `__proto__` gives Object.prototype, the eleven inherited method names give their method, and only every other key is rejected (each an if-and-only-if) |
| ThemeContext.CallAsUpdater | vibe-coder/src/contexts/ThemeContext.tsx:161 | an inherited method handed to React's setter runs as an updater on the previous state with no receiver. `constructor` returns an object unchanged and wraps a string or boolean. `toString` returns "[object Undefined]". `isPrototypeOf` returns `false` when the previous state is a primitive and throws otherwise. Every other method throws (each an if-and-only-if). No updater produces a registry theme that was not already current |
| ThemeContext.SetThemeAsWritten | vibe-coder/src/contexts/ThemeContext.tsx:159-163 | `setTheme` as written: a registry key selects its theme; `__proto__` stores Object.prototype; `toString` stores "[object Undefined]"; `isPrototypeOf` stores `false` after a primitive state; `constructor` changes the state exactly when it is a primitive; every other inherited method, and `isPrototypeOf` after an object state, throws a TypeError; every other key changes nothing; the trigger is never touched |
| ThemeContext.SetThemeAsWrittenEscapesRegistry | vibe-coder/src/contexts/ThemeContext.tsx:160-161 | `__proto__`, `toString`, `hasOwnProperty`, `isPrototypeOf` and `constructor` are not registry keys, yet the written guard admits them. From a registry theme, the first two leave a non-theme value current, and the third and fourth throw. After `toString`, `isPrototypeOf` stores `false`, and `constructor` then wraps it in a Boolean object |
| ThemeContext.SetThemeIgnoresInherited | vibe-coder/src/contexts/ThemeContext.tsx:159-163 | the corrected guard ignores `__proto__` and every inherited method name |
| Variants.TimeBucketsAgree | src/extension.ts:37-47 | at every hour, the extension's label is "Vibe: " followed by the name of the web app's theme for the same hour |
| Variants.PythonAgrees | src/extension.ts:53-54 | an id that the web app maps to python-zen gets the extension label "Vibe: Python Zen", whatever its case |
| Variants.GroupedInExtensionSplitInWeb | src/extension.ts:55-59 | any two web languages share one label in the extension but select different themes in the web app |
| Variants.WebOnlyLanguages | vibe-coder/src/contexts/ThemeContext.tsx:148-153 | rust, go and java have web themes but no extension label |

## Findings

| source | as written | input that shows it | evidently intended | confidence | as-written member | corrected member |
|---|---|---|---|---|---|---|
| vibe-coder/src/contexts/ThemeContext.tsx:160 | `if (themes[themeName])` tests a property of a plain object, so inherited names pass the guard | `setTheme("__proto__")` makes Object.prototype the current theme; `setTheme("toString")` makes it the string "[object Undefined]"; `setTheme("hasOwnProperty")` throws a TypeError; `setTheme("toString")` followed by `setTheme("isPrototypeOf")` makes it `false` | only own registry keys are accepted; every other key is ignored | not executed; medium: the lookup follows standard JavaScript semantics, but no component in the app passes such a key | ThemeContext.SetThemeAsWrittenEscapesRegistry | ThemeContext.SetThemeIgnoresInherited |

The rest of the model uses the corrected `ThemeContext.SetTheme`, which tests
membership in the registry's own keys.

## Left out

- Host editor API calls (`getConfiguration`, `update`, `createStatusBarItem`, `show`, the `onDidChange*` subscriptions and their disposal) have no visible semantics. They appear only as the abstract setting, the `writeOk` outcome, the status fields and the `shown` flag. A rejected write is assumed to persist nothing.
- Asynchrony: the un-awaited `applyTheme` promise and any interleaving of timer callbacks with event handlers are concurrency. Each check is one atomic step.
- Real timers: `setInterval`/`clearInterval` are a handle record plus a set of running timers, and firing is a `TimerFired` event that only has an effect while a timer runs. The host's clamping of out-of-range delays, and fractional `updateIntervalMinutes` values, are not modelled: minutes are an integer.
- Configuration values of the wrong type (for example a non-boolean flag) are not modelled. The configuration arrives with defaults already applied.
- The web app's 60-second interval and its cleanup on unmount are timing. Ticks are `Tick` events.
- In the composed app, the code editor's effect (`vibe-coder/src/components/CodeEditor.tsx:21-26`) runs again after every provider render. This happens because `setTheme` and `getLanguageBasedTheme` are new closures on each render and are listed in the effect's dependencies. So each `Tick` is in effect followed by a `LanguageSelected` for the editor's language. `ThemeContext.WebRun` ranges over arbitrary event sequences, so it covers this. `ThemeContext.Mount` describes the provider alone.
- Console output formatting is I/O. Log messages are abstract `LogEntry` values, filtered by the configured level.
- React rendering, hook plumbing and the `useTheme` provider guard are UI. So are `App.tsx` and `StatusBar.tsx`. The only rule in `CodeEditor.tsx` is `SelectLanguage`.
- `BedrockPassportProvider.tsx` only configures a third-party sign-in provider. It is not part of this model.
- Theme colours are opaque strings.
- `toLowerCase` is modelled on ASCII only. Non-ASCII case mappings are not modelled.
- ThemeContext.CallAsUpdater: when a function is passed to it, React's setter may run the updater eagerly or during the next render. The model does not say when it runs. It only says what the updater returns, or that it throws.
- ExtensionState.ApplyTheme: the model keeps one abstract `workbench.colorTheme` setting and assumes that, after an accepted write, the next read returns the written label. The source reads the effective value across all settings scopes (src/extension.ts:17) but writes only the user scope (src/extension.ts:22). When a workspace or folder setting also sets `workbench.colorTheme`, the next read still returns that value. Then every check and every timer tick writes again, so `ExtensionState.ApplyTwiceWritesOnce` and `ExtensionState.CheckTwiceWritesAtMostOnce` hold only when no such setting exists.
- "Exactly one `applyTheme` call per check" has no member of its own. `ExtensionState.Check` applies the single choice that `Resolve` returns, so it holds by construction.
