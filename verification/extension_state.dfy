/**
 The editor extension's state: the host's `workbench.colorTheme` setting, the
 status bar item, the log, and the interval timer. Host calls become fields of
 one immutable record and every handler is a transition function. Whether the
 host accepts a settings write is a parameter, as are the hour and the active
 editor's language id.
 */
module ExtensionState {
  import opened Wrappers
  import opened Hours
  import opened ExtensionResolve

  /** The `vibe-coder` settings, as read with their declared defaults already applied. */
  datatype Config = Config(
    enableLanguageTrigger: bool,
    enableTimeTrigger: bool,
    updateIntervalMinutes: int,
    logLevel: string)

  const DefaultConfig: Config := Config(true, true, 5, "info")

  /** Milliseconds per minute, as the interval period is computed. */
  const MillisPerMinute: int := 60 * 1000

  /**
   Whether `log(level, …)` reaches the console under the configured level:
   "off" silences everything, "info" drops only debug messages, and any other
   value, recognised or not, lets everything through.
   */
  function Emits(logLevel: string, level: string): (r: bool)
    ensures logLevel == "off" ==> !r
    ensures logLevel == "info" ==> (r <==> level != "debug")
    ensures logLevel != "off" && logLevel != "info" ==> r
  {
    if logLevel == "off" then false
    else if logLevel == "info" && level == "debug" then false
    else true
  }

  /** The levels are nested: whatever "off" lets through "info" does, and whatever "info" does every other level does. */
  lemma LogLevelsNested(level: string, other: string)
    requires other != "off"
    ensures Emits("off", level) ==> Emits("info", level)
    ensures Emits("info", level) ==> Emits(other, level)
  {
  }

  /** An unrecognised level behaves like "debug", not like the default "info". */
  lemma UnknownLevelIsDebug(logLevel: string, level: string)
    requires logLevel != "off" && logLevel != "info"
    ensures Emits(logLevel, level) == Emits("debug", level)
    ensures Emits(logLevel, "debug") != Emits(DefaultConfig.logLevel, "debug")
  {
  }

  /** The messages the extension logs; their text formatting is left to the console. */
  datatype LogEntry =
    | Activated
    | Applying(themeLabel: string, trigger: Trigger)
    | WriteFailed(themeLabel: string)
    | AlreadyActive(themeLabel: string)
    | Deactivated

  /** An interval handle: a host-assigned identity and its period in milliseconds. */
  datatype Timer = Timer(id: nat, periodMs: int)

  /**
   Everything the extension reads or writes: the host setting (absent when the
   host has none), the status bar item's text, tooltip and visibility, the
   number of settings writes attempted, the log, the module-level interval
   handle, the timers the host still runs, and the next handle identity.
   */
  datatype Ext = Ext(
    setting: Option<string>,
    statusText: string,
    tooltip: string,
    shown: bool,
    writes: nat,
    log: seq<LogEntry>,
    interval: Option<Timer>,
    live: set<Timer>,
    nextTimer: nat)

  /** Appends `e` when the configured level lets a message of `level` through. */
  function Log(log: seq<LogEntry>, logLevel: string, level: string, e: LogEntry): seq<LogEntry> {
    if Emits(logLevel, level) then log + [e] else log
  }

  /** The status bar tooltip for a label and its trigger. */
  function Tooltip(themeLabel: string, trigger: Trigger): string {
    "Vibe Coder: " + themeLabel + " (" + trigger.Name() + ")"
  }

  /** The interval handle and the running timers are left alone. */
  predicate SameTimers(s: Ext, r: Ext) {
    r.interval == s.interval && r.live == s.live && r.nextTimer == s.nextTimer
  }

  /**
   `applyTheme`: when the host setting differs from the label, one write is
   attempted; on success the setting and the status item follow the label, on
   failure both stay as they were and nothing escapes. When the setting already
   holds the label there is no write, but the status item is still refreshed.
   */
  function ApplyTheme(s: Ext, logLevel: string, c: Choice, writeOk: bool): (r: Ext)
    ensures r.writes == s.writes + (if s.setting == Some(c.themeLabel) then 0 else 1)
    ensures s.setting == Some(c.themeLabel) || writeOk ==>
              && r.setting == Some(c.themeLabel)
              && r.statusText == c.themeLabel
              && r.tooltip == Tooltip(c.themeLabel, c.trigger)
              && r.shown
    ensures s.setting != Some(c.themeLabel) && !writeOk ==>
              && r.setting == s.setting
              && r.statusText == s.statusText
              && r.tooltip == s.tooltip
              && r.shown == s.shown
    ensures SameTimers(s, r)
    ensures s.log <= r.log
  {
    if s.setting != Some(c.themeLabel) then
      var attempted := s.(log := Log(s.log, logLevel, "info", Applying(c.themeLabel, c.trigger)),
                          writes := s.writes + 1);
      if writeOk then
        attempted.(setting := Some(c.themeLabel),
                   statusText := c.themeLabel,
                   tooltip := Tooltip(c.themeLabel, c.trigger),
                   shown := true)
      else
        attempted.(log := Log(attempted.log, logLevel, "debug", WriteFailed(c.themeLabel)))
    else
      s.(log := Log(s.log, logLevel, "debug", AlreadyActive(c.themeLabel)),
         statusText := c.themeLabel,
         tooltip := Tooltip(c.themeLabel, c.trigger),
         shown := true)
  }

  /** Applying the same label twice, the first time successfully, writes at most once, and only if the label was new. */
  lemma ApplyTwiceWritesOnce(s: Ext, logLevel: string, c1: Choice, c2: Choice, writeOk2: bool)
    requires c1.themeLabel == c2.themeLabel
    ensures ApplyTheme(ApplyTheme(s, logLevel, c1, true), logLevel, c2, writeOk2).writes
         == s.writes + (if s.setting == Some(c1.themeLabel) then 0 else 1)
    ensures ApplyTheme(ApplyTheme(s, logLevel, c1, true), logLevel, c2, writeOk2).tooltip
         == Tooltip(c2.themeLabel, c2.trigger)
  {
  }

  /** With logging off, a rejected write leaves no trace beyond the attempt count. */
  lemma FailedWriteIsSilent(s: Ext, c: Choice)
    requires s.setting != Some(c.themeLabel)
    ensures ApplyTheme(s, "off", c, false) == s.(writes := s.writes + 1)
  {
  }

  /** Under the default level the failure itself is not logged; only the attempt is. */
  lemma FailureNotLoggedAtInfo(s: Ext, c: Choice)
    requires s.setting != Some(c.themeLabel)
    ensures ApplyTheme(s, "info", c, false).log == s.log + [Applying(c.themeLabel, c.trigger)]
  {
  }

  /** `checkTriggersAndApplyTheme`: resolve once under the current settings and apply that one choice. */
  function Check(s: Ext, cfg: Config, languageId: Option<string>, h: Hour, writeOk: bool): (r: Ext)
    ensures r.writes <= s.writes + 1
    ensures SameTimers(s, r)
    ensures writeOk ==> r.setting == Some(Resolve(cfg.enableLanguageTrigger, cfg.enableTimeTrigger, languageId, h).themeLabel)
  {
    ApplyTheme(s, cfg.logLevel, Resolve(cfg.enableLanguageTrigger, cfg.enableTimeTrigger, languageId, h), writeOk)
  }

  /** Two checks in the same context, the first one accepted by the host, cause at most one write between them. */
  lemma CheckTwiceWritesAtMostOnce(s: Ext, cfg: Config, languageId: Option<string>, h: Hour, writeOk2: bool)
    ensures Check(Check(s, cfg, languageId, h, true), cfg, languageId, h, writeOk2).writes <= s.writes + 1
    ensures Check(Check(s, cfg, languageId, h, true), cfg, languageId, h, writeOk2).writes
         == Check(s, cfg, languageId, h, true).writes
  {
  }

  /** Only labels of the extension ever reach the status bar, starting from its empty text. */
  predicate StatusOk(s: Ext) {
    s.statusText == "" || s.statusText in ExtensionLabels
  }

  lemma CheckKeepsStatusOk(s: Ext, cfg: Config, languageId: Option<string>, h: Hour, writeOk: bool)
    ensures StatusOk(s) ==> StatusOk(Check(s, cfg, languageId, h, writeOk))
  {
    ResolveTriggerMatchesLabel(cfg.enableLanguageTrigger, cfg.enableTimeTrigger, languageId, h);
  }

  /**
   The timer bookkeeping is sound when the host runs exactly the timer the
   module-level handle names (or none when the handle is empty) and every
   identity handed out so far is below `nextTimer`.
   */
  predicate TimersWf(s: Ext) {
    && (s.interval.None? ==> s.live == {})
    && (s.interval.Some? ==> s.live == {s.interval.value})
    && (forall t :: t in s.live ==> t.id < s.nextTimer)
  }

  /** `setInterval`: the host starts a fresh timer with the given period. */
  function StartTimer(s: Ext, periodMs: int): (r: Ext)
    ensures r.interval == Some(Timer(s.nextTimer, periodMs))
    ensures r.live == s.live + {Timer(s.nextTimer, periodMs)}
    ensures r.nextTimer == s.nextTimer + 1
  {
    var t := Timer(s.nextTimer, periodMs);
    s.(interval := Some(t), live := s.live + {t}, nextTimer := s.nextTimer + 1)
  }

  /**
   The interval reset of the configuration handler: the old handle, if any, is
   cleared and emptied; then a new one is started when the time trigger is on,
   with a period of the configured minutes in milliseconds.
   */
  function ResetInterval(s: Ext, cfg: Config): (r: Ext)
    ensures TimersWf(s) && s.interval.Some? ==> s.interval.value !in r.live
    ensures r.interval.Some? <==> cfg.enableTimeTrigger
    ensures r.interval.Some? ==> r.interval.value.periodMs == cfg.updateIntervalMinutes * MillisPerMinute
    ensures TimersWf(s) ==> TimersWf(r)
    ensures TimersWf(s) && s.interval.Some? && r.interval.Some? ==> r.interval.value.id != s.interval.value.id
    ensures TimersWf(s) ==> |r.live| <= 1
    ensures r.setting == s.setting && r.statusText == s.statusText && r.tooltip == s.tooltip
    ensures r.writes == s.writes && r.log == s.log
  {
    var cleared :=
      if s.interval.Some? then s.(live := s.live - {s.interval.value}, interval := None) else s;
    if cfg.enableTimeTrigger then StartTimer(cleared, cfg.updateIntervalMinutes * MillisPerMinute)
    else cleared
  }

  /** The state before activation: the host setting as found, an empty status item, no timers. */
  function Fresh(setting: Option<string>): Ext {
    Ext(setting, "", "", false, 0, [], None, {}, 0)
  }

  /**
   `activate`: log the start, start the interval when the time trigger is on,
   then run one check.
   */
  function Activate(setting: Option<string>, cfg: Config, languageId: Option<string>, h: Hour, writeOk: bool): (r: Ext)
    ensures TimersWf(r) && StatusOk(r)
    ensures r.interval.Some? <==> cfg.enableTimeTrigger
    ensures r.interval.Some? ==> r.interval.value.periodMs == cfg.updateIntervalMinutes * MillisPerMinute
    ensures r.writes <= 1
    ensures Emits(cfg.logLevel, "info") ==> |r.log| > 0 && r.log[0] == Activated
  {
    var s0 := Fresh(setting);
    var s1 := s0.(log := Log(s0.log, cfg.logLevel, "info", Activated));
    var s2 := if cfg.enableTimeTrigger then StartTimer(s1, cfg.updateIntervalMinutes * MillisPerMinute) else s1;
    CheckKeepsStatusOk(s2, cfg, languageId, h, writeOk);
    Check(s2, cfg, languageId, h, writeOk)
  }

  /**
   The configuration handler: changes outside `vibe-coder` are ignored; otherwise
   the interval is reset and one check runs at once.
   */
  function OnConfigChange(s: Ext, affectsVibe: bool, cfg: Config, languageId: Option<string>, h: Hour, writeOk: bool): (r: Ext)
    ensures !affectsVibe ==> r == s
    ensures affectsVibe ==> (r.interval.Some? <==> cfg.enableTimeTrigger)
    ensures affectsVibe && r.interval.Some? ==> r.interval.value.periodMs == cfg.updateIntervalMinutes * MillisPerMinute
    ensures affectsVibe && TimersWf(s) && s.interval.Some? ==> s.interval.value !in r.live
    ensures TimersWf(s) ==> TimersWf(r) && |r.live| <= 1
    ensures StatusOk(s) ==> StatusOk(r)
  {
    if affectsVibe then
      var reset := ResetInterval(s, cfg);
      CheckKeepsStatusOk(reset, cfg, languageId, h, writeOk);
      Check(reset, cfg, languageId, h, writeOk)
    else s
  }

  /**
   `deactivate`: the running interval is cleared, but the module-level handle is
   not emptied; then the stop is logged.
   */
  function Deactivate(s: Ext, cfg: Config): (r: Ext)
    ensures TimersWf(s) ==> r.live == {}
    ensures r.interval == s.interval
    ensures r.setting == s.setting && r.statusText == s.statusText && r.writes == s.writes
  {
    var cleared := if s.interval.Some? then s.(live := s.live - {s.interval.value}) else s;
    cleared.(log := Log(cleared.log, cfg.logLevel, "info", Deactivated))
  }

  /** What the host may do while the extension is active, with the context each handler reads. */
  datatype Event =
    | EditorChanged(cfg: Config, languageId: Option<string>, hour: Hour, writeOk: bool)
    | ConfigChanged(affectsVibe: bool, cfg: Config, languageId: Option<string>, hour: Hour, writeOk: bool)
    | TimerFired(cfg: Config, languageId: Option<string>, hour: Hour, writeOk: bool)

  /** One event: editor changes and timer ticks run a check (a tick only while a timer runs). */
  function Step(s: Ext, e: Event): Ext {
    match e
    case EditorChanged(cfg, id, h, ok) => Check(s, cfg, id, h, ok)
    case ConfigChanged(a, cfg, id, h, ok) => OnConfigChange(s, a, cfg, id, h, ok)
    case TimerFired(cfg, id, h, ok) => if s.live != {} then Check(s, cfg, id, h, ok) else s
  }

  function Run(s: Ext, events: seq<Event>): Ext
    decreases |events|
  {
    if |events| == 0 then s else Run(Step(s, events[0]), events[1..])
  }

  /** Every event keeps the timer bookkeeping sound and the status bar on extension labels. */
  lemma StepKeepsInvariant(s: Ext, e: Event)
    requires TimersWf(s) && StatusOk(s)
    ensures TimersWf(Step(s, e)) && StatusOk(Step(s, e))
    ensures |Step(s, e).live| <= 1
  {
    match e
    case EditorChanged(cfg, id, h, ok) =>
      CheckKeepsStatusOk(s, cfg, id, h, ok);
    case ConfigChanged(a, cfg, id, h, ok) =>
    case TimerFired(cfg, id, h, ok) =>
      CheckKeepsStatusOk(s, cfg, id, h, ok);
  }

  /**
   After activation, whatever events follow, at most one interval timer runs,
   it is the one the handle names, and the status bar only shows extension labels.
   */
  lemma {:induction false} RunKeepsInvariant(s: Ext, events: seq<Event>)
    requires TimersWf(s) && StatusOk(s)
    ensures TimersWf(Run(s, events)) && StatusOk(Run(s, events))
    ensures |Run(s, events).live| <= 1
    decreases |events|
  {
    if |events| > 0 {
      StepKeepsInvariant(s, events[0]);
      RunKeepsInvariant(Step(s, events[0]), events[1..]);
    }
  }

  /** After `deactivate` no timer runs, so a late tick changes nothing: no callback is left behind. */
  lemma DeactivateLeavesNoCallback(s: Ext, cfg: Config, tick: Event)
    requires TimersWf(s)
    requires tick.TimerFired?
    ensures Deactivate(s, cfg).live == {}
    ensures Step(Deactivate(s, cfg), tick) == Deactivate(s, cfg)
  {
  }

  /** Whatever happened since activation, deactivation stops every timer the extension started. */
  lemma ActivateRunDeactivate(setting: Option<string>, cfg: Config, languageId: Option<string>, h: Hour,
                              writeOk: bool, events: seq<Event>, cfgAtStop: Config)
    ensures Deactivate(Run(Activate(setting, cfg, languageId, h, writeOk), events), cfgAtStop).live == {}
  {
    RunKeepsInvariant(Activate(setting, cfg, languageId, h, writeOk), events);
  }
}
