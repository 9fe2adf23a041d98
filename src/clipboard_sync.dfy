/** The front end's clipboard synchroniser (`frontend/utils/clipboard-sync.js`):
    it polls the local clipboard, debounces changes, sends them to its
    callbacks, takes content from other devices and keeps a bounded
    history, newest first. The clipboard, the clock, `localStorage` and
    `RegExp.prototype.test` are parameters; the poll timer and the
    debounce timer are explicit steps; writes to the local clipboard and
    the data handed to the callbacks are recorded. */
module ClipboardSync {
  import opened Wrappers
  import opened Seqs
  import opened Text
  import opened JsValues

  const MAX_HISTORY := 50
  const PREVIEW := 50

  datatype HistoryItem = HistoryItem(content: string, timestamp: int, size: nat)

  /** An exclusion pattern: a string, a `RegExp` (by its source) or any
      other value, which never matches. */
  datatype Pattern = Literal(text: string) | Regex(source: string) | OtherPattern

  datatype Settings = Settings(autoSync: bool, syncDelay: int, contentTypes: seq<string>, maxSize: nat, excludePatterns: seq<Pattern>)

  datatype SettingsOverrides = SettingsOverrides(autoSync: Option<bool>, syncDelay: Option<int>, contentTypes: Option<seq<string>>,
                                                 maxSize: Option<nat>, excludePatterns: Option<seq<Pattern>>)

  function DefaultSettings(): Settings
  {
    Settings(true, 500, ["text", "image"], 10 * 1024 * 1024, [])
  }

  /** `{ ...settings, ...overrides }`. */
  function MergeSettings(s: Settings, o: SettingsOverrides): Settings
  {
    Settings(o.autoSync.GetOr(s.autoSync), o.syncDelay.GetOr(s.syncDelay), o.contentTypes.GetOr(s.contentTypes),
             o.maxSize.GetOr(s.maxSize), o.excludePatterns.GetOr(s.excludePatterns))
  }

  /** What `syncClipboardContent` hands to every callback. */
  datatype SyncData = SyncData(type_: string, content: string, timestamp: int, deviceId: string)

  /** A batch of sync data and the callbacks registered when it went out. */
  datatype Sent = Sent(data: SyncData, callbacks: seq<nat>)

  /** Data from another device: `None` for `null` or `undefined`, and its
      `content` (a string or absent), `timestamp` and `type` as given. */
  datatype RemoteData = RemoteData(content: Option<string>, timestamp: JsValue, type_: JsValue)

  datatype State = State(
    enabled: bool,
    lastContent: string,
    lastSyncTime: int,
    history: seq<HistoryItem>,
    settings: Settings,
    /** Poll intervals started and not cleared. */
    pollTimers: nat,
    /** Whether `clipboardPollInterval` holds a handle. */
    polling: bool,
    /** The content the pending debounce timer will sync, if any. */
    pending: Option<string>,
    callbacks: seq<nat>,
    /** Contents written to the local clipboard, in order. */
    writes: seq<string>,
    sent: seq<Sent>)

  function Initial(): State
  {
    State(false, "", 0, [], DefaultSettings(), 0, false, None, [], [], [])
  }

  /** `addToHistory(content)`: put in front, and the oldest beyond 50 dropped. */
  function AddToHistory(h: seq<HistoryItem>, content: string, now: int): seq<HistoryItem>
  {
    Take([HistoryItem(content, now, |content|)] + h, MAX_HISTORY)
  }

  /** The history never holds more than 50 items; a new item comes first
      and the others follow in their order, the oldest dropped once full. */
  lemma AddToHistoryEffect(h: seq<HistoryItem>, content: string, now: int)
    ensures var r := AddToHistory(h, content, now);
      && |r| == Min(|h| + 1, MAX_HISTORY)
      && r[0] == HistoryItem(content, now, |content|)
      && r[1..] == h[..|r| - 1]
  {
    var r := AddToHistory(h, content, now);
    assert r[1..] == ([HistoryItem(content, now, |content|)] + h)[1..|r|];
  }

  /** `shouldExcludeContent(content)`, with `test(source, content)` for a
      regular expression's `test`. */
  predicate ShouldExclude(patterns: seq<Pattern>, content: string, test: (string, string) -> bool)
  {
    |patterns| != 0 && exists i :: 0 <= i < |patterns| && PatternMatches(patterns[i], content, test)
  }

  predicate PatternMatches(p: Pattern, content: string, test: (string, string) -> bool)
  {
    match p
    case Literal(t) => Contains(content, t)
    case Regex(src) => test(src, content)
    case OtherPattern => false
  }

  /** No patterns exclude nothing; with patterns, content is excluded
      exactly when it contains a string pattern or a regular expression
      matches it. */
  lemma ShouldExcludeIff(patterns: seq<Pattern>, content: string, test: (string, string) -> bool)
    ensures patterns == [] ==> !ShouldExclude(patterns, content, test)
    ensures ShouldExclude(patterns, content, test) <==>
      (exists i :: 0 <= i < |patterns| && patterns[i].Literal? && Contains(content, patterns[i].text))
      || (exists i :: 0 <= i < |patterns| && patterns[i].Regex? && test(patterns[i].source, content))
  {
    if ShouldExclude(patterns, content, test) {
      var i :| 0 <= i < |patterns| && PatternMatches(patterns[i], content, test);
      if patterns[i].Literal? {
        assert patterns[i].Literal? && Contains(content, patterns[i].text);
      }
    }
  }

  /** `enable()`: in a browser a poll interval starts and its handle
      replaces the one held; every call starts one more. */
  function Enable(s: State, browser: bool): State
  {
    if browser then s.(enabled := true, pollTimers := s.pollTimers + 1, polling := true)
    else s.(enabled := true)
  }

  /** `disable()`: the interval whose handle is held is cleared. */
  function Disable(s: State): State
  {
    if s.polling && s.pollTimers > 0 then s.(enabled := false, pollTimers := s.pollTimers - 1, polling := false)
    else s.(enabled := false)
  }

  /** Enabling and disabling stops the poll; but only the handle of the
      last interval is kept, so enabling twice leaves a poll timer running
      however often the manager is disabled (it then finds the manager
      disabled and does nothing). */
  lemma EnableTwiceLeaksTimer(s: State)
    requires s.pollTimers == 0 && !s.polling
    ensures Disable(Enable(s, true)).pollTimers == 0
    ensures Disable(Disable(Enable(Enable(s, true), true))).pollTimers == 1
    ensures !Disable(Disable(Enable(Enable(s, true), true))).enabled
  {
  }

  /** `checkClipboardContent()` on a poll, where `read` is what
      `navigator.clipboard.readText()` gave (`None` when there is no
      clipboard or it threw): a change is remembered, and unless excluded
      it (re)starts the debounce timer. */
  function Poll(s: State, read: Option<string>, test: (string, string) -> bool): State
  {
    if !s.enabled || read.None? || read.value == s.lastContent then s
    else
      var s1 := s.(lastContent := read.value);
      if ShouldExclude(s.settings.excludePatterns, read.value, test) then s1 else s1.(pending := Some(read.value))
  }

  /** `syncClipboardContent(content)`: nothing when disabled, too large or
      blank; otherwise the time is taken, the content goes into the
      history and to every callback. */
  function Sync(s: State, content: string, now: int, deviceId: string): State
  {
    if !s.enabled || |content| > s.settings.maxSize || Trim(content) == "" then s
    else
      s.(lastSyncTime := now, history := AddToHistory(s.history, content, now),
         sent := s.sent + [Sent(SyncData("text", content, now, deviceId), s.callbacks)])
  }

  /** The debounce timer fires and syncs its content. */
  function DebounceFired(s: State, now: int, deviceId: string): State
    requires s.pending.Some?
  {
    Sync(s.(pending := None), s.pending.value, now, deviceId)
  }

  /** The guards of `syncClipboardContent`, and what a sync does. */
  lemma SyncEffect(s: State, content: string, now: int, deviceId: string)
    ensures !s.enabled ==> Sync(s, content, now, deviceId) == s
    ensures |content| > s.settings.maxSize ==> Sync(s, content, now, deviceId) == s
    ensures Trim(content) == "" ==> Sync(s, content, now, deviceId) == s
    ensures s.enabled && |content| <= s.settings.maxSize && Trim(content) != "" ==>
      var t := Sync(s, content, now, deviceId);
      && t.history[0].content == content && |t.history| <= MAX_HISTORY
      && t.sent == s.sent + [Sent(SyncData("text", content, now, deviceId), s.callbacks)]
      && t.lastSyncTime == now && t.lastContent == s.lastContent && t.writes == s.writes
  {
  }

  /** A change that is not excluded syncs once the debounce delay has
      passed with no other change; the content is remembered at once,
      excluded or not. */
  lemma PollThenDebounce(s: State, text: string, test: (string, string) -> bool, now: int, deviceId: string)
    requires s.enabled && text != s.lastContent
    ensures Poll(s, Some(text), test).lastContent == text
    ensures ShouldExclude(s.settings.excludePatterns, text, test) ==> Poll(s, Some(text), test).pending == s.pending
    ensures !ShouldExclude(s.settings.excludePatterns, text, test) ==>
      var p := Poll(s, Some(text), test);
      p.pending == Some(text) && DebounceFired(p, now, deviceId) == Sync(s.(lastContent := text, pending := None), text, now, deviceId)
  {
  }

  /** `isValidSyncData(data)`. */
  predicate IsValid(data: Option<RemoteData>, contentTypes: seq<string>)
  {
    && data.Some? && data.value.content.Some? && data.value.timestamp.Num?
    && Truthy(data.value.type_) && data.value.type_.Str? && data.value.type_.s in contentTypes
  }

  /** `handleRemoteClipboardContent(data)`: ignored when disabled, invalid
      or the same as the last content; otherwise written to the local
      clipboard, remembered with its timestamp and put into the history. */
  function Remote(s: State, data: Option<RemoteData>, now: int): State
  {
    if !s.enabled || !IsValid(data, s.settings.contentTypes) || data.value.content.value == s.lastContent then s
    else
      var c := data.value.content.value;
      s.(writes := s.writes + [c], lastContent := c, lastSyncTime := data.value.timestamp.n,
         history := AddToHistory(s.history, c, now))
  }

  /** Remote content is taken exactly when the manager is enabled, the data
      is an object with content, a numeric timestamp and a listed type,
      and the content is new; then it is the last content and the newest
      history item, and nothing is sent back to the callbacks. */
  lemma RemoteIff(s: State, data: Option<RemoteData>, now: int)
    ensures var t := Remote(s, data, now);
      && (t == s <==> !(s.enabled && IsValid(data, s.settings.contentTypes) && data.value.content.value != s.lastContent))
      && (t != s ==> && t.lastContent == data.value.content.value
                     && t.history[0].content == t.lastContent
                     && t.writes == s.writes + [t.lastContent]
                     && t.lastSyncTime == data.value.timestamp.n
                     && t.sent == s.sent)
  {
  }

  /** Receiving the same content twice changes nothing the second time. */
  lemma RemoteTwice(s: State, data: Option<RemoteData>, now: int, later: int)
    ensures Remote(Remote(s, data, now), data, later) == Remote(s, data, now)
  {
  }

  /** Only the types listed in the settings are taken ("text" and
      "image" by default); a string timestamp is refused. */
  lemma DefaultTypes(c: string, t: int)
    ensures IsValid(Some(RemoteData(Some(c), Num(t), Str("text"))), DefaultSettings().contentTypes)
    ensures !IsValid(Some(RemoteData(Some(c), Num(t), Str("file"))), DefaultSettings().contentTypes)
    ensures !IsValid(Some(RemoteData(Some(c), Str("1"), Str("text"))), DefaultSettings().contentTypes)
  {
  }

  /** `restoreHistoryItem(index)`: only for an index inside the history. */
  function Restore(s: State, index: int): State
  {
    if 0 <= index < |s.history| then
      s.(writes := s.writes + [s.history[index].content], lastContent := s.history[index].content)
    else s
  }

  lemma RestoreBounds(s: State, index: int)
    ensures !(0 <= index < |s.history|) ==> Restore(s, index) == s
    ensures 0 <= index < |s.history| ==>
      Restore(s, index).lastContent == s.history[index].content && Restore(s, index).history == s.history
  {
  }

  /** A restored item is the last content, so a poll that reads it back
      from the clipboard changes nothing. */
  lemma RestoreThenPoll(s: State, index: int, test: (string, string) -> bool)
    requires 0 <= index < |s.history|
    ensures var r := Restore(s, index); Poll(r, Some(r.lastContent), test) == r
  {
  }

  /** `getStatus().lastContentPreview`. */
  function Preview(content: string): (r: string)
    ensures |content| <= PREVIEW ==> r == content
    ensures |content| > PREVIEW ==> |r| == PREVIEW + 3 && r[..PREVIEW] == content[..PREVIEW]
  {
    Take(content, PREVIEW) + (if |content| > PREVIEW then "..." else "")
  }

  datatype Status = Status(isEnabled: bool, lastSyncTime: int, lastContentPreview: string, historyCount: nat, settings: Settings)

  /** The operations keep the history within its bound. */
  lemma HistoryStaysBounded(s: State, content: string, data: Option<RemoteData>, now: int, deviceId: string, index: int)
    requires |s.history| <= MAX_HISTORY
    ensures |Sync(s, content, now, deviceId).history| <= MAX_HISTORY
    ensures |Remote(s, data, now).history| <= MAX_HISTORY
    ensures Restore(s, index).history == s.history
  {
  }

  // ---------------------------------------------------------------------
  // The manager object

  class Manager {
    var enabled: bool
    var lastContent: string
    var lastSyncTime: int
    var history: seq<HistoryItem>
    var settings: Settings
    var pollTimers: nat
    var polling: bool
    var pending: Option<string>
    var callbacks: seq<nat>
    var writes: seq<string>
    var sent: seq<Sent>

    function Current(): State
      reads this
    {
      State(enabled, lastContent, lastSyncTime, history, settings, pollTimers, polling, pending, callbacks, writes, sent)
    }

    ghost predicate Valid()
      reads this
    {
      |history| <= MAX_HISTORY
    }

    constructor ()
      ensures Current() == Initial() && Valid()
    {
      enabled, lastContent, lastSyncTime, history, settings := false, "", 0, [], DefaultSettings();
      pollTimers, polling, pending, callbacks, writes, sent := 0, false, None, [], [], [];
    }

    method Enable_(browser: bool)
      modifies this
      ensures Current() == Enable(old(Current()), browser)
    {
      enabled := true;
      if browser {
        pollTimers, polling := pollTimers + 1, true;
      }
    }

    method Disable_()
      modifies this
      ensures Current() == Disable(old(Current()))
    {
      enabled := false;
      if polling && pollTimers > 0 {
        pollTimers, polling := pollTimers - 1, false;
      }
    }

    /** A firing of a poll interval. */
    method PollFired(read: Option<string>, test: (string, string) -> bool)
      requires pollTimers > 0
      modifies this
      ensures Current() == Poll(old(Current()), read, test)
    {
      if !enabled || read.None? || read.value == lastContent {
        return;
      }
      lastContent := read.value;
      if !ShouldExclude(settings.excludePatterns, read.value, test) {
        pending := Some(read.value);
      }
    }

    /** The debounce timer runs out. */
    method DebounceTimerFired(now: int, deviceId: string)
      requires Valid() && pending.Some?
      modifies this
      ensures Valid() && Current() == DebounceFired(old(Current()), now, deviceId)
    {
      var content := pending.value;
      pending := None;
      SyncClipboardContent(content, now, deviceId);
    }

    method SyncClipboardContent(content: string, now: int, deviceId: string)
      requires Valid()
      modifies this
      ensures Valid() && Current() == Sync(old(Current()), content, now, deviceId)
    {
      if !enabled || |content| > settings.maxSize || Trim(content) == "" {
        return;
      }
      lastSyncTime := now;
      history := AddToHistory(history, content, now);
      sent := sent + [Sent(SyncData("text", content, now, deviceId), callbacks)];
    }

    method HandleRemoteClipboardContent(data: Option<RemoteData>, now: int)
      requires Valid()
      modifies this
      ensures Valid() && Current() == Remote(old(Current()), data, now)
    {
      if !enabled || !IsValid(data, settings.contentTypes) || data.value.content.value == lastContent {
        return;
      }
      var c := data.value.content.value;
      writes := writes + [c];
      lastContent := c;
      lastSyncTime := data.value.timestamp.n;
      history := AddToHistory(history, c, now);
    }

    method RestoreHistoryItem(index: int)
      modifies this
      ensures Current() == Restore(old(Current()), index)
    {
      if 0 <= index < |history| {
        writes := writes + [history[index].content];
        lastContent := history[index].content;
      }
    }

    method GetHistory() returns (h: seq<HistoryItem>)
      ensures h == history
    {
      h := history;
    }

    method ClearHistory()
      modifies this`history
      ensures history == []
    {
      history := [];
    }

    method AddSyncCallback(cb: nat)
      modifies this`callbacks
      ensures callbacks == old(callbacks) + [cb]
    {
      callbacks := callbacks + [cb];
    }

    method RemoveSyncCallback(cb: nat)
      modifies this`callbacks
      ensures callbacks == RemoveFirst(old(callbacks), cb)
    {
      var i := Find(callbacks, cb);
      if i > -1 {
        callbacks := callbacks[..i] + callbacks[i + 1..];
      }
    }

    method SetSettings(o: SettingsOverrides)
      modifies this`settings
      ensures settings == MergeSettings(old(settings), o)
    {
      settings := MergeSettings(settings, o);
    }

    method GetStatus() returns (st: Status)
      ensures st == Status(enabled, lastSyncTime, Preview(lastContent), |history|, settings)
    {
      st := Status(enabled, lastSyncTime, Preview(lastContent), |history|, settings);
    }

    /** `destroy()`: disabled, with no callbacks and no history. */
    method Destroy()
      modifies this
      ensures Current() == Disable(old(Current())).(callbacks := [], history := [])
    {
      Disable_();
      callbacks := [];
      history := [];
    }
  }
}
