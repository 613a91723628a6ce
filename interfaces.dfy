/** The records of src/session/interfaces.ts. Free-form event payloads are maps
    from keys to JSON-like scalar values; a key that JavaScript would leave
    `undefined` (and `JSON.stringify` would drop) is simply absent. */
module Interfaces {

  import Text

  datatype Option<+T> = None | Some(value: T)

  /** The scalar values event payloads carry. */
  datatype Value = Str(s: string) | Num(n: int) | Bool(b: bool) | Null

  type EventData = map<string, Value>

  /** What an event carries. The events of `trackError` carry the tracked error
      object itself, which stays shared with the tracker's error list:
      `ErrorAt(k)` is the `k`-th entry of that list, whatever it holds now. */
  datatype EventBody = Fields(fields: EventData) | ErrorAt(index: nat)

  /** JavaScript truthiness of a payload value. */
  predicate Truthy(v: Value)
  {
    match v
    case Str(s) => s != ""
    case Num(n) => n != 0
    case Bool(b) => b
    case Null => false
  }

  /** `RecordedEvent` (also `PageEvent` and `SystemEvent`). The field the source
      calls `type` is `kind` here. `page` is absent on the events the older
      tracker stores in its page records. */
  datatype RecordedEvent = RecordedEvent(
    kind: string,
    data: EventBody,
    timestamp: int,
    relativeTime: int,
    page: Option<string>)

  /** `Page`: the per-path record of the page table. */
  datatype Page = Page(
    page: string,
    duration: int,
    totalClicks: int,
    percentageScroll: int,
    events: seq<RecordedEvent>)

  /** A page record as first created for `path`: all counters zero, no events. */
  function ZeroPage(path: string): (p: Page)
    ensures p.page == path && p.events == []
    ensures p.duration == 0 && p.totalClicks == 0 && p.percentageScroll == 0
  {
    Page(path, 0, 0, 0, [])
  }

  /** `TrackedError`. `count` is optional in the source (absent until tracked). */
  datatype TrackedError = TrackedError(
    message: string,
    source: Option<string>,
    lineno: Option<int>,
    colno: Option<int>,
    stack: Option<string>,
    timestamp: int,
    page: string,
    count: Option<int>,
    hash: string,
    lastOccurred: int)

  datatype DeviceType = Mobile | Desktop

  datatype Screen = Screen(width: int, height: int)

  /** `UserInfo`: the environment snapshot, with the two fields filled in later. */
  datatype UserInfo = UserInfo(
    browser: string,
    platform: string,
    language: string,
    fingerprint: Option<string>,
    isBot: Option<bool>,
    deviceType: DeviceType,
    screen: Screen,
    timezone: string)

  /** One event of the session-replay recorder; its content is not interpreted. */
  datatype RRWebEvent = RRWebEvent(raw: string)

  /** `Session`. */
  datatype Session = Session(
    sessionId: string,
    entryUrl: string,
    exitUrl: string,
    pages: seq<Page>,
    rrwebEvents: seq<RRWebEvent>,
    systemEvents: seq<RecordedEvent>)

  /** A new session on `path`: entry and exit are `path`, nothing recorded yet. */
  function NewSession(sessionId: string, path: string): (s: Session)
    ensures s.entryUrl == path && s.exitUrl == path
    ensures s.pages == [] && s.systemEvents == [] && s.rrwebEvents == []
  {
    Session(sessionId, path, path, [], [], [])
  }

  /** `Events`: the session object. It is an object because the tracker manager,
      the replay recorder and the older tracker all hold the same one. */
  class Events {
    var leadId: Option<string>
    var userInfo: UserInfo
    var session: Session
    var errors: seq<TrackedError>
    var createdAt: string

    constructor (leadId: Option<string>, userInfo: UserInfo, session: Session,
                 errors: seq<TrackedError>, createdAt: string)
      ensures this.leadId == leadId && this.userInfo == userInfo && this.session == session
      ensures this.errors == errors && this.createdAt == createdAt
    {
      this.leadId := leadId;
      this.userInfo := userInfo;
      this.session := session;
      this.errors := errors;
      this.createdAt := createdAt;
    }
  }

  /** What the browser environment reports at construction time
      (`navigator.*`, `window.inner*`, the resolved time zone). */
  datatype Environment = Environment(
    userAgent: string,
    platform: string,
    language: string,
    innerWidth: int,
    innerHeight: int,
    timezone: string)

  /** `/Mobi|Android/i.test(userAgent) ? 'mobile' : 'desktop'`. */
  function DeviceTypeOf(userAgent: string): (d: DeviceType)
    ensures d == Mobile <==> Text.ContainsIgnoreCase(userAgent, "mobi") || Text.ContainsIgnoreCase(userAgent, "android")
  {
    if Text.ContainsIgnoreCase(userAgent, "mobi") || Text.ContainsIgnoreCase(userAgent, "android")
    then Mobile else Desktop
  }

  /** The user-info snapshot built from the environment. */
  function UserInfoOf(env: Environment, fingerprint: Option<string>, isBot: Option<bool>): (u: UserInfo)
    ensures u.browser == env.userAgent && u.platform == env.platform && u.language == env.language
    ensures u.screen == Screen(env.innerWidth, env.innerHeight) && u.timezone == env.timezone
    ensures u.fingerprint == fingerprint && u.isBot == isBot
    ensures u.deviceType == DeviceTypeOf(env.userAgent)
  {
    UserInfo(env.userAgent, env.platform, env.language, fingerprint, isBot,
             DeviceTypeOf(env.userAgent), Screen(env.innerWidth, env.innerHeight), env.timezone)
  }

  /** The number of events of `kind`: `events.filter(e => e.type === kind).length`. */
  function CountKind(events: seq<RecordedEvent>, kind: string): (n: nat)
    ensures n <= |events|
  {
    CountPrefix(events, kind, |events|)
  }

  /** The number of events of `kind` among the first `n`. */
  function CountPrefix(events: seq<RecordedEvent>, kind: string, n: nat): (c: nat)
    requires n <= |events|
    ensures c <= n
  {
    if n == 0 then 0 else CountPrefix(events, kind, n - 1) + (if events[n - 1].kind == kind then 1 else 0)
  }

  /** Extending the sequence does not change the count over a prefix. */
  lemma {:induction false} CountPrefixExtend(events: seq<RecordedEvent>, more: seq<RecordedEvent>, kind: string, n: nat)
    requires n <= |events|
    ensures CountPrefix(events + more, kind, n) == CountPrefix(events, kind, n)
  {
    if n > 0 {
      CountPrefixExtend(events, more, kind, n - 1);
      assert (events + more)[n - 1] == events[n - 1];
    }
  }

  lemma CountKindAppend(events: seq<RecordedEvent>, e: RecordedEvent, kind: string)
    ensures CountKind(events + [e], kind) == CountKind(events, kind) + (if e.kind == kind then 1 else 0)
  {
    CountPrefixExtend(events, [e], kind, |events|);
  }

  lemma CountKindLast(events: seq<RecordedEvent>, kind: string)
    requires events != []
    ensures CountKind(events, kind) ==
            CountKind(events[..|events| - 1], kind) + (if events[|events| - 1].kind == kind then 1 else 0)
  {
    var n := |events|;
    assert events == events[..n - 1] + [events[n - 1]];
    CountKindAppend(events[..n - 1], events[n - 1], kind);
  }

  /** `e.data?.url || ''`; a tracked error has no `url`. */
  function UrlKey(e: RecordedEvent): (v: Value)
    ensures Truthy(v) || v == Str("")
  {
    match e.data
    case Fields(d) => if "url" in d && Truthy(d["url"]) then d["url"] else Str("")
    case ErrorAt(_) => Str("")
  }

  /** The set of `data.url` values (or '') over the `navigation` events. */
  function NavigationUrls(events: seq<RecordedEvent>): (urls: set<Value>)
    ensures |urls| <= CountKind(events, "navigation")
    ensures urls == set e | e in events && e.kind == "navigation" :: UrlKey(e)
  {
    if events == [] then {}
    else
      var rest := NavigationUrls(events[..|events| - 1]);
      var last := events[|events| - 1];
      CountKindLast(events, "navigation");
      assert forall e :: e in events ==> e in events[..|events| - 1] || e == last;
      if last.kind == "navigation" then rest + {UrlKey(last)} else rest
  }

  lemma NavigationUrlsAppend(events: seq<RecordedEvent>, e: RecordedEvent)
    ensures NavigationUrls(events + [e]) ==
            if e.kind == "navigation" then NavigationUrls(events) + {UrlKey(e)} else NavigationUrls(events)
  {
    assert (events + [e])[..|events|] == events;
  }
}
