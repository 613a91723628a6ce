/** The session tracker of src/session/SystemTracker.ts taken as a value: its
    fields together with the `Events` object it owns, and one pure step per
    handler. The class `SessionTracker.SystemTracker` performs the same steps on
    its fields; the lemmas here say what the steps keep and what they promise.
    Every `Date.now()` the source reads is a parameter of its own. */
module SessionModel {

  import opened Interfaces
  import opened Pages
  import Text
  import ErrorHash
  import BotDetector

  /** `SystemTrackerOptions` once the constructor has filled in the stored user id. */
  datatype Options = Options(businessId: Option<string>, userId: Option<string>)

  /** The tracker's fields and its `Events` object. `events.errors` is not here:
      it holds the very same error objects as `errors`, which the class states as
      part of its invariant. `detector` says whether `this.botDetector` has been
      assigned. */
  datatype TrackerState = TrackerState(
    pageUrl: string,
    sessionStartTime: int,
    pageStartTime: int,
    startTime: int,
    maxScroll: int,
    lastEvent: Option<RecordedEvent>,   // the event last recorded, compared structurally
    errors: seq<TrackedError>,
    fingerprint: Option<string>,
    botInfo: Option<BotDetector.BotDetectionResult>,
    detector: bool,
    options: Options,
    userInfo: UserInfo,
    session: Session,
    leadId: Option<string>,
    createdAt: string)

  // ---------------------------------------------------------------------------
  // The page table

  predicate HasCurrentPage(st: TrackerState)
  {
    HasPage(st.session.pages, st.pageUrl)
  }

  /** The current record, as an index into the page table. */
  function CurrentIndex(st: TrackerState): nat
    requires HasCurrentPage(st)
  {
    PageIndex(st.session.pages, st.pageUrl)
  }

  /** The page table with record `i` replaced by `p`. */
  function WithPage(st: TrackerState, i: nat, p: Page): TrackerState
    requires i < |st.session.pages|
  {
    st.(session := st.session.(pages := st.session.pages[i := p]))
  }

  // ---------------------------------------------------------------------------
  // Construction

  /** The constructor, up to the asynchronous fingerprint and bot steps: the
      clock is read once for both start times, once for the lead id and once
      for the session id; the options take the stored user id when they have none. */
  function Initial(env: Environment, path: string, options: Options, storedUserId: Option<string>,
                   now: int, leadNow: int, sessionNow: int, createdAt: string): TrackerState
  {
    var opts := options.(userId := if options.userId.Some? then options.userId else storedUserId);
    var session := NewSession("sess_" + Text.IntToString(sessionNow), path);
    TrackerState(path, now, now, now, 0, None, [], None, None, false, opts,
                 UserInfoOf(env, None, None), session.(pages := InitPage(session.pages, path)),
                 Some(LeadId(leadNow)), createdAt)
  }

  /** `lead_${Date.now()}`. */
  function LeadId(leadNow: int): string
  {
    "lead_" + Text.IntToString(leadNow)
  }

  // ---------------------------------------------------------------------------
  // recordEvent

  /** The event `recordEvent` builds: the clock reading, the time since the
      session started and the current path. */
  function NewEvent(st: TrackerState, kind: string, data: EventBody, now: int): RecordedEvent
  {
    RecordedEvent(kind, data, now, now - st.sessionStartTime, Some(st.pageUrl))
  }

  /** The session log once `recordEvent` has been offered `e`: unchanged when `e`
      equals the last event recorded, `e` appended otherwise. */
  function Logged(log: seq<RecordedEvent>, last: Option<RecordedEvent>, e: RecordedEvent): seq<RecordedEvent>
  {
    if last == Some(e) then log else log + [e]
  }

  /** `recordEvent`: nothing when the event equals the last one recorded;
      otherwise the event goes to the current page and to the session log, and a
      click counts on the current page. */
  function RecordEvent(st: TrackerState, kind: string, data: EventBody, now: int): (r: TrackerState)
    requires HasCurrentPage(st)
    ensures HasCurrentPage(r)
  {
    var e := NewEvent(st, kind, data, now);
    if st.lastEvent == Some(e) then st
    else
      var i := CurrentIndex(st);
      var p := st.session.pages[i];
      var p' := p.(events := p.events + [e],
                   totalClicks := if kind == "click" then p.totalClicks + 1 else p.totalClicks);
      var r := st.(lastEvent := Some(e),
                   session := st.session.(pages := st.session.pages[i := p'],
                                          systemEvents := st.session.systemEvents + [e]));
      assert r.session.pages[i].page == r.pageUrl;
      r
  }


  // ---------------------------------------------------------------------------
  // The invariant of the tracker, one predicate per part, each over the fields it reads

  /** One record per path, and one for the current path. */
  predicate PathsOk(pages: seq<Page>, url: string)
  {
    UniquePaths(pages) && HasPage(pages, url)
  }

  /** A record's click counter counts its click events, and its events carry its path. */
  predicate PageOk(p: Page)
  {
    p.totalClicks == CountKind(p.events, "click") &&
    forall k :: 0 <= k < |p.events| ==> p.events[k].page == Some(p.page)
  }

  predicate RecordsOk(pages: seq<Page>)
  {
    forall i :: 0 <= i < |pages| ==> PageOk(pages[i])
  }

  /** The click counters of all pages add up to the clicks of the session log. */
  predicate ClicksOk(pages: seq<Page>, log: seq<RecordedEvent>)
  {
    SumClicks(pages) == CountKind(log, "click")
  }

  /** `lastEvent`, when set, is the last event of the session log. */
  predicate LastOk(last: Option<RecordedEvent>, log: seq<RecordedEvent>)
  {
    last.Some? ==> log != [] && log[|log| - 1] == last.value
  }

  /** The scroll mark is never negative, and once set it is the current page's record. */
  predicate ScrollOk(maxScroll: int, pages: seq<Page>, url: string)
  {
    maxScroll >= 0 &&
    (maxScroll > 0 ==> HasPage(pages, url) && pages[FindPage(pages, url).value].percentageScroll == maxScroll)
  }

  /** Every tracked error has a count of at least 1, and no two tracked errors
      share a hash. */
  predicate ErrorsOk(errors: seq<TrackedError>)
  {
    (forall i :: 0 <= i < |errors| ==> errors[i].count.Some? && errors[i].count.value >= 1) &&
    (forall i, j :: 0 <= i < j < |errors| ==> errors[i].hash != errors[j].hash)
  }

  /** Every tracked error carries the hash of its own message and stack. */
  predicate HashesOk(errors: seq<TrackedError>)
  {
    forall i :: 0 <= i < |errors| ==> errors[i].hash == ErrorHash.ErrorHash(errors[i])
  }

  /** Every logged event is stamped with a page and with its time since the session start. */
  predicate LogOk(log: seq<RecordedEvent>, sessionStartTime: int)
  {
    forall k :: 0 <= k < |log| ==>
      log[k].page.Some? && log[k].relativeTime == log[k].timestamp - sessionStartTime
  }

  /** Every logged error event refers to one of the `tracked` errors. */
  predicate RefsOk(log: seq<RecordedEvent>, tracked: nat)
  {
    forall k :: 0 <= k < |log| && log[k].data.ErrorAt? ==> log[k].data.index < tracked
  }

  predicate Inv(st: TrackerState)
  {
    var pages, log := st.session.pages, st.session.systemEvents;
    PathsOk(pages, st.pageUrl) && RecordsOk(pages) && ClicksOk(pages, log) &&
    LastOk(st.lastEvent, log) && ScrollOk(st.maxScroll, pages, st.pageUrl) && ErrorsOk(st.errors) &&
    LogOk(log, st.sessionStartTime) && RefsOk(log, |st.errors|) && st.session.exitUrl == st.pageUrl
  }

  /** A fresh tracker on `path`: one zeroed record, nothing logged, nothing tracked. */
  predicate Fresh(st: TrackerState, path: string)
  {
    st.pageUrl == path && st.session.pages == [ZeroPage(path)] && st.session.systemEvents == [] &&
    st.lastEvent == None && st.maxScroll == 0 && st.errors == [] &&
    st.session.entryUrl == path && st.session.exitUrl == path
  }

  lemma FreshInv(st: TrackerState, path: string)
    requires Fresh(st, path)
    ensures Inv(st)
  {
    assert st.session.pages[0].page == path;
    assert st.session.pages[..0] == [];
  }

  /** The constructor leaves a fresh tracker on the current path, with the options'
      user id or else the stored one. */
  lemma InitialFresh(env: Environment, path: string, options: Options, storedUserId: Option<string>,
                     now: int, leadNow: int, sessionNow: int, createdAt: string)
    ensures var st := Initial(env, path, options, storedUserId, now, leadNow, sessionNow, createdAt);
      Fresh(st, path) && st.sessionStartTime == now && st.pageStartTime == now &&
      st.options.userId == (if options.userId.Some? then options.userId else storedUserId) &&
      st.options.businessId == options.businessId &&
      st.userInfo.fingerprint == None && st.userInfo.isBot == None &&
      st.botInfo == None && !st.detector && st.fingerprint == None &&
      st.leadId == Some(LeadId(leadNow)) && st.createdAt == createdAt
  {
  }

  lemma InitialInv(env: Environment, path: string, options: Options, storedUserId: Option<string>,
                   now: int, leadNow: int, sessionNow: int, createdAt: string)
    ensures Inv(Initial(env, path, options, storedUserId, now, leadNow, sessionNow, createdAt))
  {
    InitialFresh(env, path, options, storedUserId, now, leadNow, sessionNow, createdAt);
    FreshInv(Initial(env, path, options, storedUserId, now, leadNow, sessionNow, createdAt), path);
  }

  // ---------------------------------------------------------------------------
  // Replacing one page record

  /** Appending an event stamped with the record's path keeps the record consistent. */
  lemma AppendKeepsPageOk(p: Page, e: RecordedEvent)
    requires PageOk(p) && e.page == Some(p.page)
    ensures PageOk(p.(events := p.events + [e], totalClicks := p.totalClicks + (if e.kind == "click" then 1 else 0)))
  {
    CountKindAppend(p.events, e, "click");
  }

  /** A record replaced by a consistent one for the same path keeps the paths
      and the records consistent, and `find` still returns the same index. */
  lemma ReplaceRecordKeeps(pages: seq<Page>, i: nat, p: Page, url: string)
    requires i < |pages| && p.page == pages[i].page
    requires PathsOk(pages, url) && RecordsOk(pages) && PageOk(p)
    ensures PathsOk(pages[i := p], url) && RecordsOk(pages[i := p])
    ensures FindPage(pages[i := p], url) == FindPage(pages, url)
    ensures SumClicks(pages[i := p]) == SumClicks(pages) - pages[i].totalClicks + p.totalClicks
  {
    assert SamePaths(pages, pages[i := p]);
    FindPageSamePaths(pages, pages[i := p], url);
    SumClicksReplace(pages, i, p);
  }

  // ---------------------------------------------------------------------------
  // What recordEvent promises

  /** The page table `recordEvent` leaves when it records: the current record
      with the event appended and, for a click, its counter raised. */
  lemma RecordEventPage(st: TrackerState, kind: string, data: EventBody, now: int)
    requires HasCurrentPage(st)
    requires st.lastEvent != Some(NewEvent(st, kind, data, now))
    ensures var i, e := CurrentIndex(st), NewEvent(st, kind, data, now);
      var p := st.session.pages[i];
      RecordEvent(st, kind, data, now).session.pages ==
        st.session.pages[i := p.(events := p.events + [e],
                                 totalClicks := p.totalClicks + (if e.kind == "click" then 1 else 0))]
  {
  }

  /** Either nothing changes (the event equals the last one), or exactly one
      event is appended to the log and to the current page, a click adds one
      to that page's counter, and nothing else changes. */
  lemma RecordEventEffect(st: TrackerState, kind: string, data: EventBody, now: int)
    requires HasCurrentPage(st)
    ensures var e, r := NewEvent(st, kind, data, now), RecordEvent(st, kind, data, now);
      (st.lastEvent == Some(e) ==> r == st) &&
      (st.lastEvent != Some(e) ==>
         var i := CurrentIndex(st);
         r.lastEvent == Some(e) &&
         r.session.systemEvents == st.session.systemEvents + [e] &&
         |r.session.pages| == |st.session.pages| &&
         r.session.pages[i].events == st.session.pages[i].events + [e] &&
         r.session.pages[i].totalClicks == st.session.pages[i].totalClicks + (if kind == "click" then 1 else 0) &&
         r.session.pages[i].page == st.session.pages[i].page &&
         r.session.pages[i].duration == st.session.pages[i].duration &&
         r.session.pages[i].percentageScroll == st.session.pages[i].percentageScroll &&
         (forall j :: 0 <= j < |st.session.pages| && j != i ==> r.session.pages[j] == st.session.pages[j]) &&
         r.(lastEvent := st.lastEvent, session := r.session.(pages := st.session.pages, systemEvents := st.session.systemEvents)) == st)
  {
  }

  /** What `recordEvent` changes besides the log and the current record: nothing. */
  lemma RecordEventFrame(st: TrackerState, kind: string, data: EventBody, now: int)
    requires HasCurrentPage(st)
    ensures var r := RecordEvent(st, kind, data, now);
      r.pageUrl == st.pageUrl && r.sessionStartTime == st.sessionStartTime &&
      r.pageStartTime == st.pageStartTime && r.startTime == st.startTime && r.maxScroll == st.maxScroll &&
      r.errors == st.errors && r.fingerprint == st.fingerprint && r.botInfo == st.botInfo &&
      r.options == st.options && r.userInfo == st.userInfo &&
      r.session.sessionId == st.session.sessionId && r.session.entryUrl == st.session.entryUrl &&
      r.session.exitUrl == st.session.exitUrl && r.session.rrwebEvents == st.session.rrwebEvents &&
      SamePaths(r.session.pages, st.session.pages) &&
      r.session.systemEvents == Logged(st.session.systemEvents, st.lastEvent, NewEvent(st, kind, data, now))
  {
  }

  /** After `recordEvent` the last event is the one just offered, whether or not it was a repeat. */
  lemma RecordEventLast(st: TrackerState, kind: string, data: EventBody, now: int)
    requires HasCurrentPage(st)
    ensures RecordEvent(st, kind, data, now).lastEvent == Some(NewEvent(st, kind, data, now))
  {
  }

  /** `recordEvent` changes no path and no duration, and the current record stays current. */
  lemma RecordEventKeepsRecordFields(st: TrackerState, kind: string, data: EventBody, now: int)
    requires HasCurrentPage(st)
    ensures var r := RecordEvent(st, kind, data, now);
      SamePaths(r.session.pages, st.session.pages) && CurrentIndex(r) == CurrentIndex(st) &&
      forall j :: 0 <= j < |st.session.pages| ==> r.session.pages[j].duration == st.session.pages[j].duration
  {
    var r := RecordEvent(st, kind, data, now);
    FindPageSamePaths(r.session.pages, st.session.pages, st.pageUrl);
  }

  lemma RecordEventKeepsPages(st: TrackerState, kind: string, data: EventBody, now: int)
    requires PathsOk(st.session.pages, st.pageUrl) && RecordsOk(st.session.pages)
    requires ScrollOk(st.maxScroll, st.session.pages, st.pageUrl)
    ensures var r := RecordEvent(st, kind, data, now);
      PathsOk(r.session.pages, r.pageUrl) && RecordsOk(r.session.pages) &&
      ScrollOk(r.maxScroll, r.session.pages, r.pageUrl) && CurrentIndex(r) == CurrentIndex(st)
  {
    var e, r := NewEvent(st, kind, data, now), RecordEvent(st, kind, data, now);
    if st.lastEvent != Some(e) {
      var i := CurrentIndex(st);
      RecordEventPage(st, kind, data, now);
      AppendKeepsPageOk(st.session.pages[i], e);
      ReplaceRecordKeeps(st.session.pages, i, r.session.pages[i], st.pageUrl);
    }
  }

  lemma RecordEventKeepsClicks(st: TrackerState, kind: string, data: EventBody, now: int)
    requires HasCurrentPage(st) && ClicksOk(st.session.pages, st.session.systemEvents)
    ensures var r := RecordEvent(st, kind, data, now); ClicksOk(r.session.pages, r.session.systemEvents)
  {
    var e, r := NewEvent(st, kind, data, now), RecordEvent(st, kind, data, now);
    if st.lastEvent != Some(e) {
      var i := CurrentIndex(st);
      RecordEventPage(st, kind, data, now);
      CountKindAppend(st.session.systemEvents, e, "click");
      SumClicksReplace(st.session.pages, i, r.session.pages[i]);
    }
  }

  lemma RecordEventKeepsLog(st: TrackerState, kind: string, data: EventBody, now: int)
    requires HasCurrentPage(st) && LogOk(st.session.systemEvents, st.sessionStartTime)
    requires LastOk(st.lastEvent, st.session.systemEvents) && RefsOk(st.session.systemEvents, |st.errors|)
    requires data.ErrorAt? ==> data.index < |st.errors|
    ensures var r := RecordEvent(st, kind, data, now);
      LogOk(r.session.systemEvents, r.sessionStartTime) && LastOk(r.lastEvent, r.session.systemEvents) &&
      RefsOk(r.session.systemEvents, |r.errors|)
  {
  }

  /** `recordEvent` keeps the invariant, given an event that refers to no error
      or to a tracked one. */
  lemma RecordEventKeepsInv(st: TrackerState, kind: string, data: EventBody, now: int)
    requires Inv(st)
    requires data.ErrorAt? ==> data.index < |st.errors|
    ensures Inv(RecordEvent(st, kind, data, now))
    ensures CurrentIndex(RecordEvent(st, kind, data, now)) == CurrentIndex(st)
  {
    RecordEventKeepsPages(st, kind, data, now);
    RecordEventKeepsClicks(st, kind, data, now);
    RecordEventKeepsLog(st, kind, data, now);
  }

  // ---------------------------------------------------------------------------
  // Navigation

  function PageExitData(page: string, duration: int, maxScroll: int): EventBody
  {
    Fields(map["page" := Str(page), "duration" := Num(duration), "maxScroll" := Num(maxScroll)])
  }

  function PageViewData(page: string, previousPage: string): EventBody
  {
    Fields(map["page" := Str(page), "previousPage" := Str(previousPage)])
  }

  /** The current record with its duration set to `d`. */
  function WithDuration(st: TrackerState, d: int): (r: TrackerState)
    requires HasCurrentPage(st)
    ensures HasCurrentPage(r)
  {
    var i := CurrentIndex(st);
    var r := WithPage(st, i, st.session.pages[i].(duration := d));
    assert r.session.pages[i].page == r.pageUrl;
    r
  }

  /** Setting the duration changes that one field of the current record and nothing else. */
  lemma WithDurationEffect(st: TrackerState, d: int)
    requires HasCurrentPage(st)
    ensures var r, i := WithDuration(st, d), CurrentIndex(st);
      r == st.(session := st.session.(pages := st.session.pages[i := st.session.pages[i].(duration := d)])) &&
      SamePaths(r.session.pages, st.session.pages) && CurrentIndex(r) == i
  {
    var r, i := WithDuration(st, d), CurrentIndex(st);
    assert SamePaths(r.session.pages, st.session.pages);
    FindPageSamePaths(r.session.pages, st.session.pages, st.pageUrl);
  }

  /** Setting the current page's duration keeps the invariant. */
  lemma WithDurationKeepsInv(st: TrackerState, d: int)
    requires Inv(st)
    ensures Inv(WithDuration(st, d))
  {
    var i := CurrentIndex(st);
    ReplaceRecordKeeps(st.session.pages, i, st.session.pages[i].(duration := d), st.pageUrl);
  }

  /** The first half of `handlePageChange`: when the current page has a record,
      close its duration and record `page_exit`. */
  function ClosePage(st: TrackerState, now: int, exitNow: int): TrackerState
  {
    if HasCurrentPage(st) then CloseWith(st, now - st.pageStartTime, exitNow) else st
  }

  /** Close with duration `d`. */
  function CloseWith(st: TrackerState, d: int, exitNow: int): TrackerState
    requires HasCurrentPage(st)
  {
    RecordEvent(WithDuration(st, d), "page_exit", PageExitData(st.pageUrl, d, st.maxScroll), exitNow)
  }

  /** The event `page_exit` records. */
  function ExitEvent(st: TrackerState, now: int, exitNow: int): RecordedEvent
  {
    NewEvent(st, "page_exit", PageExitData(st.pageUrl, now - st.pageStartTime, st.maxScroll), exitNow)
  }

  lemma CloseKeepsInv(st: TrackerState, d: int, exitNow: int)
    requires Inv(st)
    ensures Inv(CloseWith(st, d, exitNow))
  {
    WithDurationKeepsInv(st, d);
    RecordEventKeepsInv(WithDuration(st, d), "page_exit", PageExitData(st.pageUrl, d, st.maxScroll), exitNow);
  }

  /** Closing the page keeps the invariant. */
  lemma ClosePageKeepsInv(st: TrackerState, now: int, exitNow: int)
    requires Inv(st)
    ensures Inv(ClosePage(st, now, exitNow))
  {
    assert HasCurrentPage(st);
    assert ClosePage(st, now, exitNow) == CloseWith(st, now - st.pageStartTime, exitNow);
    CloseKeepsInv(st, now - st.pageStartTime, exitNow);
  }

  lemma CloseKeepsFields(st: TrackerState, d: int, exitNow: int)
    requires HasCurrentPage(st)
    ensures var data := PageExitData(st.pageUrl, d, st.maxScroll);
      var r, e := CloseWith(st, d, exitNow), NewEvent(st, "page_exit", data, exitNow);
      r.pageUrl == st.pageUrl && r.pageStartTime == st.pageStartTime && r.maxScroll == st.maxScroll &&
      r.sessionStartTime == st.sessionStartTime && r.errors == st.errors &&
      r.session.entryUrl == st.session.entryUrl && r.session.exitUrl == st.session.exitUrl &&
      r.session.systemEvents == Logged(st.session.systemEvents, st.lastEvent, e)
  {
    WithDurationEffect(st, d);
    RecordEventFrame(WithDuration(st, d), "page_exit", PageExitData(st.pageUrl, d, st.maxScroll), exitNow);
  }

  lemma CloseSetsDuration(st: TrackerState, d: int, exitNow: int)
    requires HasCurrentPage(st)
    ensures var r := CloseWith(st, d, exitNow);
      SamePaths(r.session.pages, st.session.pages) && CurrentIndex(r) == CurrentIndex(st) &&
      r.session.pages[CurrentIndex(st)].duration == d
  {
    var w := WithDuration(st, d);
    WithDurationEffect(st, d);
    RecordEventKeepsRecordFields(w, "page_exit", PageExitData(st.pageUrl, d, st.maxScroll), exitNow);
  }

  /** Closing the page: what changes besides the current record. */
  lemma ClosePageFields(st: TrackerState, now: int, exitNow: int)
    requires HasCurrentPage(st)
    ensures var r, e := ClosePage(st, now, exitNow), ExitEvent(st, now, exitNow);
      r.pageUrl == st.pageUrl && r.pageStartTime == st.pageStartTime && r.maxScroll == st.maxScroll &&
      r.sessionStartTime == st.sessionStartTime && r.errors == st.errors &&
      r.session.entryUrl == st.session.entryUrl && r.session.exitUrl == st.session.exitUrl &&
      r.session.systemEvents == Logged(st.session.systemEvents, st.lastEvent, e)
  {
    assert ClosePage(st, now, exitNow) == CloseWith(st, now - st.pageStartTime, exitNow);
    CloseKeepsFields(st, now - st.pageStartTime, exitNow);
  }

  /** Closing the page sets the current record's duration to `now - pageStartTime`
      and changes no path. */
  lemma ClosePageDuration(st: TrackerState, now: int, exitNow: int)
    requires HasCurrentPage(st)
    ensures var r := ClosePage(st, now, exitNow);
      SamePaths(r.session.pages, st.session.pages) && CurrentIndex(r) == CurrentIndex(st) &&
      r.session.pages[CurrentIndex(st)].duration == now - st.pageStartTime
  {
    assert ClosePage(st, now, exitNow) == CloseWith(st, now - st.pageStartTime, exitNow);
    CloseSetsDuration(st, now - st.pageStartTime, exitNow);
  }

  /** The state between the two halves of `handlePageChange`: the scroll mark and the
      last event reset, the new path and its start time, a record for it, the exit URL. */
  function Moved(st: TrackerState, newPage: string, now: int): (r: TrackerState)
    ensures HasCurrentPage(r)
  {
    var st1 := st.(maxScroll := 0, lastEvent := None, pageUrl := newPage, pageStartTime := now, startTime := now);
    st1.(session := st1.session.(pages := InitPage(st1.session.pages, newPage), exitUrl := newPage))
  }

  lemma MovedKeepsInv(st: TrackerState, newPage: string, now: int)
    requires Inv(st)
    ensures Inv(Moved(st, newPage, now))
  {
    var pages := st.session.pages;
    if !HasPage(pages, newPage) {
      SumClicksAppendZero(pages, newPage);
      assert (pages + [ZeroPage(newPage)])[|pages|] == ZeroPage(newPage);
    }
  }

  /** The second half of `handlePageChange`: move to the new path and record
      `page_view` with the previous path. */
  function OpenPage(st: TrackerState, newPage: string, now: int, viewNow: int): TrackerState
  {
    RecordEvent(Moved(st, newPage, now), "page_view", PageViewData(newPage, st.pageUrl), viewNow)
  }

  /** The event `page_view` records. */
  function ViewEvent(st: TrackerState, newPage: string, viewNow: int): RecordedEvent
  {
    RecordedEvent("page_view", PageViewData(newPage, st.pageUrl), viewNow, viewNow - st.sessionStartTime, Some(newPage))
  }

  lemma OpenPageUnfold(st: TrackerState, newPage: string, now: int, viewNow: int)
    ensures OpenPage(st, newPage, now, viewNow) ==
            RecordEvent(Moved(st, newPage, now), "page_view", PageViewData(newPage, st.pageUrl), viewNow)
  {
  }

  lemma OpenKeepsInv(st: TrackerState, newPage: string, now: int, viewNow: int)
    requires Inv(st)
    ensures Inv(RecordEvent(Moved(st, newPage, now), "page_view", PageViewData(newPage, st.pageUrl), viewNow))
  {
    MovedKeepsInv(st, newPage, now);
    RecordEventKeepsInv(Moved(st, newPage, now), "page_view", PageViewData(newPage, st.pageUrl), viewNow);
  }

  /** Opening the new page keeps the invariant. */
  lemma OpenPageKeepsInv(st: TrackerState, newPage: string, now: int, viewNow: int)
    requires Inv(st)
    ensures Inv(OpenPage(st, newPage, now, viewNow))
  {
    OpenPageUnfold(st, newPage, now, viewNow);
    OpenKeepsInv(st, newPage, now, viewNow);
  }

  lemma OpenEffect(st: TrackerState, newPage: string, now: int, viewNow: int)
    ensures var m := Moved(st, newPage, now);
      var r := RecordEvent(m, "page_view", PageViewData(newPage, st.pageUrl), viewNow);
      r.pageUrl == newPage && r.pageStartTime == now && r.startTime == now &&
      r.maxScroll == 0 && r.session.exitUrl == newPage && r.session.entryUrl == st.session.entryUrl &&
      r.errors == st.errors && r.sessionStartTime == st.sessionStartTime &&
      r.lastEvent == Some(ViewEvent(st, newPage, viewNow)) &&
      r.session.systemEvents == st.session.systemEvents + [ViewEvent(st, newPage, viewNow)] &&
      SamePaths(r.session.pages, InitPage(st.session.pages, newPage))
  {
    var m := Moved(st, newPage, now);
    RecordEventFrame(m, "page_view", PageViewData(newPage, st.pageUrl), viewNow);
    RecordEventEffect(m, "page_view", PageViewData(newPage, st.pageUrl), viewNow);
  }

  /** Opening the new page moves to it with its start time, resets the scroll
      mark, sets the exit URL, makes sure the page has a record, and always logs
      `page_view` with the previous path. */
  lemma OpenPageEffect(st: TrackerState, newPage: string, now: int, viewNow: int)
    ensures var r := OpenPage(st, newPage, now, viewNow);
      r.pageUrl == newPage && r.pageStartTime == now && r.startTime == now &&
      r.maxScroll == 0 && r.session.exitUrl == newPage && r.session.entryUrl == st.session.entryUrl &&
      r.errors == st.errors && r.sessionStartTime == st.sessionStartTime &&
      r.lastEvent == Some(ViewEvent(st, newPage, viewNow)) &&
      r.session.systemEvents == st.session.systemEvents + [ViewEvent(st, newPage, viewNow)] &&
      SamePaths(r.session.pages, InitPage(st.session.pages, newPage))
  {
    OpenPageUnfold(st, newPage, now, viewNow);
    OpenEffect(st, newPage, now, viewNow);
  }

  /** Opening the new page keeps every path and every duration, and adds a record
      for the new path if it has none. */
  lemma OpenPageRecords(st: TrackerState, newPage: string, now: int, viewNow: int)
    ensures var r := OpenPage(st, newPage, now, viewNow);
      SamePaths(r.session.pages, InitPage(st.session.pages, newPage)) &&
      |st.session.pages| <= |r.session.pages| &&
      forall j :: 0 <= j < |st.session.pages| ==>
        r.session.pages[j].page == st.session.pages[j].page &&
        r.session.pages[j].duration == st.session.pages[j].duration
  {
    var m := Moved(st, newPage, now);
    OpenPageUnfold(st, newPage, now, viewNow);
    RecordEventKeepsRecordFields(m, "page_view", PageViewData(newPage, st.pageUrl), viewNow);
  }

  /** `handlePageChange`: `now` is its own clock reading; `exitNow` and `viewNow`
      are the readings of the two `recordEvent` calls. */
  function PageChange(st: TrackerState, newPage: string, now: int, exitNow: int, viewNow: int): TrackerState
  {
    OpenPage(ClosePage(st, now, exitNow), newPage, now, viewNow)
  }

  /** The navigation handler: a change to the same path is ignored. */
  function HandleNavigation(st: TrackerState, newUrl: string, now: int, exitNow: int, viewNow: int): TrackerState
  {
    if newUrl == st.pageUrl then st else PageChange(st, newUrl, now, exitNow, viewNow)
  }

  /** Navigating to the path already shown changes nothing. */
  lemma SamePathIgnored(st: TrackerState, now: int, exitNow: int, viewNow: int)
    ensures HandleNavigation(st, st.pageUrl, now, exitNow, viewNow) == st
  {
  }

  /** Navigation keeps the invariant. */
  lemma NavigationKeepsInv(st: TrackerState, newUrl: string, now: int, exitNow: int, viewNow: int)
    requires Inv(st)
    ensures Inv(HandleNavigation(st, newUrl, now, exitNow, viewNow))
  {
    if newUrl != st.pageUrl {
      ClosePageKeepsInv(st, now, exitNow);
      OpenPageKeepsInv(ClosePage(st, now, exitNow), newUrl, now, viewNow);
    }
  }

  /** Navigating to a new path moves to it with its start time, resets the scroll
      mark and sets the exit URL to it. */
  lemma NavigationFields(st: TrackerState, newPage: string, now: int, exitNow: int, viewNow: int)
    requires HasCurrentPage(st) && newPage != st.pageUrl
    ensures var r := HandleNavigation(st, newPage, now, exitNow, viewNow);
      r.pageUrl == newPage && r.pageStartTime == now && r.session.exitUrl == newPage && r.maxScroll == 0 &&
      r.errors == st.errors && r.session.entryUrl == st.session.entryUrl
  {
    var c := ClosePage(st, now, exitNow);
    assert HandleNavigation(st, newPage, now, exitNow, viewNow) == OpenPage(c, newPage, now, viewNow);
    ClosePageFields(st, now, exitNow);
    OpenPageEffect(c, newPage, now, viewNow);
  }

  /** Closing the page logs `page_exit` unless it repeats the last event. */
  lemma ClosePageLog(st: TrackerState, now: int, exitNow: int)
    requires HasCurrentPage(st)
    ensures var c := ClosePage(st, now, exitNow);
      c.session.systemEvents == Logged(st.session.systemEvents, st.lastEvent, ExitEvent(st, now, exitNow)) &&
      c.pageUrl == st.pageUrl && c.sessionStartTime == st.sessionStartTime
  {
    ClosePageFields(st, now, exitNow);
  }

  /** Opening the new page always logs `page_view` with the previous path. */
  lemma OpenPageLog(st: TrackerState, newPage: string, now: int, viewNow: int)
    ensures var r, view := OpenPage(st, newPage, now, viewNow), ViewEvent(st, newPage, viewNow);
      r.session.systemEvents == st.session.systemEvents + [view] && r.lastEvent == Some(view)
  {
    OpenPageEffect(st, newPage, now, viewNow);
  }

  /** Navigating to a new path logs `page_exit` (unless it repeats the last event)
      and then `page_view` with the previous path. */
  lemma NavigationLog(st: TrackerState, newPage: string, now: int, exitNow: int, viewNow: int)
    requires HasCurrentPage(st) && newPage != st.pageUrl
    ensures var r := HandleNavigation(st, newPage, now, exitNow, viewNow);
      var exit, view := ExitEvent(st, now, exitNow), ViewEvent(st, newPage, viewNow);
      r.session.systemEvents == Logged(st.session.systemEvents, st.lastEvent, exit) + [view] &&
      r.lastEvent == Some(view)
  {
    var c := ClosePage(st, now, exitNow);
    assert HandleNavigation(st, newPage, now, exitNow, viewNow) == OpenPage(c, newPage, now, viewNow);
    ClosePageLog(st, now, exitNow);
    OpenPageLog(c, newPage, now, viewNow);
    assert ViewEvent(c, newPage, viewNow) == ViewEvent(st, newPage, viewNow);
  }

  /** Navigating to a new path keeps every path and adds a record for the new one if missing. */
  lemma NavigationPaths(st: TrackerState, newPage: string, now: int, exitNow: int, viewNow: int)
    requires HasCurrentPage(st) && newPage != st.pageUrl
    ensures SamePaths(HandleNavigation(st, newPage, now, exitNow, viewNow).session.pages,
                      InitPage(st.session.pages, newPage))
  {
    var c := ClosePage(st, now, exitNow);
    assert HandleNavigation(st, newPage, now, exitNow, viewNow) == OpenPage(c, newPage, now, viewNow);
    ClosePageDuration(st, now, exitNow);
    OpenPageRecords(c, newPage, now, viewNow);
    InitPageSamePaths(c.session.pages, st.session.pages, newPage);
    SamePathsTrans(OpenPage(c, newPage, now, viewNow).session.pages, InitPage(c.session.pages, newPage),
                   InitPage(st.session.pages, newPage));
  }

  /** Navigating to a new path closes the old page's record with `duration = now - pageStartTime`. */
  lemma NavigationClosesPage(st: TrackerState, newPage: string, now: int, exitNow: int, viewNow: int)
    requires HasCurrentPage(st) && newPage != st.pageUrl
    ensures var r, i := HandleNavigation(st, newPage, now, exitNow, viewNow), CurrentIndex(st);
      i < |r.session.pages| && r.session.pages[i].page == st.pageUrl &&
      r.session.pages[i].duration == now - st.pageStartTime
  {
    var c := ClosePage(st, now, exitNow);
    assert HandleNavigation(st, newPage, now, exitNow, viewNow) == OpenPage(c, newPage, now, viewNow);
    ClosePageDuration(st, now, exitNow);
    OpenPageRecords(c, newPage, now, viewNow);
  }

  /** The navigation handler never records a `navigation` event, so it leaves
      the set of navigation URLs the visited-pages count is made of unchanged. */
  lemma NavigationKeepsVisitedCount(st: TrackerState, newUrl: string, now: int, exitNow: int, viewNow: int)
    requires HasCurrentPage(st)
    ensures NavigationUrls(HandleNavigation(st, newUrl, now, exitNow, viewNow).session.systemEvents) ==
            NavigationUrls(st.session.systemEvents)
  {
    if newUrl != st.pageUrl {
      var log, exit := st.session.systemEvents, ExitEvent(st, now, exitNow);
      NavigationLog(st, newUrl, now, exitNow, viewNow);
      NavigationUrlsAppend(log, exit);
      NavigationUrlsAppend(Logged(log, st.lastEvent, exit), ViewEvent(st, newUrl, viewNow));
    }
  }

  // ---------------------------------------------------------------------------
  // The scroll listener

  /** The scroll listener. `scrollHeight` stands for `scrollHeight - innerHeight`
      and `percent` for `Math.round(scrollY / scrollHeight * 100)`; the browser
      computes both, so both are parameters. */
  function Scroll(st: TrackerState, scrollHeight: int, percent: int): TrackerState
    requires HasCurrentPage(st)
  {
    if scrollHeight <= 0 || percent <= st.maxScroll then st
    else
      var i := CurrentIndex(st);
      WithPage(st.(maxScroll := percent), i, st.session.pages[i].(percentageScroll := percent))
  }

  /** A scroll raises the mark to the new percentage when the page can scroll and
      the percentage is higher, and the current record follows the mark; nothing is
      logged and no other record changes. */
  lemma ScrollEffect(st: TrackerState, scrollHeight: int, percent: int)
    requires HasCurrentPage(st)
    ensures var r, i := Scroll(st, scrollHeight, percent), CurrentIndex(st);
      var rises := scrollHeight > 0 && percent > st.maxScroll;
      r.maxScroll == (if rises then percent else st.maxScroll) && r.maxScroll >= st.maxScroll &&
      |r.session.pages| == |st.session.pages| &&
      r.session.pages[i] == (if rises then st.session.pages[i].(percentageScroll := percent) else st.session.pages[i]) &&
      (forall j :: 0 <= j < |st.session.pages| && j != i ==> r.session.pages[j] == st.session.pages[j]) &&
      r.session.systemEvents == st.session.systemEvents && r.lastEvent == st.lastEvent &&
      r.pageUrl == st.pageUrl && r.errors == st.errors
  {
  }

  lemma ScrollKeepsInv(st: TrackerState, scrollHeight: int, percent: int)
    requires Inv(st)
    ensures Inv(Scroll(st, scrollHeight, percent))
  {
    if scrollHeight > 0 && percent > st.maxScroll {
      var i := CurrentIndex(st);
      var p := st.session.pages[i].(percentageScroll := percent);
      ReplaceRecordKeeps(st.session.pages, i, p, st.pageUrl);
    }
  }

  /** Once the page has been scrolled during this visit, its stored percentage is
      the scroll mark, so no later scroll lowers it. */
  lemma ScrollRecordMonotone(st: TrackerState, scrollHeight: int, percent: int)
    requires Inv(st) && st.maxScroll > 0
    ensures var r, i := Scroll(st, scrollHeight, percent), CurrentIndex(st);
      r.session.pages[i].percentageScroll >= st.session.pages[i].percentageScroll &&
      r.session.pages[i].percentageScroll == r.maxScroll
  {
    ScrollEffect(st, scrollHeight, percent);
  }

  /** Navigation resets the mark to 0 but keeps a revisited page's stored
      percentage, so the first scroll of a new visit overwrites it even when it is
      lower than what the page had reached before. */
  lemma ScrollRecordCanDrop(st: TrackerState, scrollHeight: int, percent: int)
    requires HasCurrentPage(st) && st.maxScroll == 0 && scrollHeight > 0
    requires 0 < percent < st.session.pages[CurrentIndex(st)].percentageScroll
    ensures var r, i := Scroll(st, scrollHeight, percent), CurrentIndex(st);
      r.session.pages[i].percentageScroll == percent < st.session.pages[i].percentageScroll
  {
  }

  // ---------------------------------------------------------------------------
  // The click and input listeners

  /** What the click listener reads of the clicked element: its tag, its
      `data-track` attribute, `innerText` and `value` (absent on most elements). */
  datatype ClickTarget = ClickTarget(tagName: string, dataTrack: Option<string>, innerText: string, value: Option<string>)

  /** Only buttons, links and elements marked `data-track="true"` are tracked. */
  predicate TracksClick(t: ClickTarget)
  {
    t.tagName == "BUTTON" || t.tagName == "A" || t.dataTrack == Some("true")
  }

  /** The click payload; `text` is `innerText || value`, absent when both are. */
  function ClickData(button: int, x: int, y: int, t: ClickTarget): (d: EventData)
    ensures d.Keys == {"button", "x", "y", "target"} + (if t.innerText != "" || t.value.Some? then {"text"} else {})
    ensures d["button"] == Num(button) && d["x"] == Num(x) && d["y"] == Num(y) && d["target"] == Str(t.tagName)
    ensures t.innerText != "" ==> d["text"] == Str(t.innerText)
    ensures t.innerText == "" && t.value.Some? ==> d["text"] == Str(t.value.value)
  {
    var d := map["button" := Num(button), "x" := Num(x), "y" := Num(y), "target" := Str(t.tagName)];
    if t.innerText != "" then d["text" := Str(t.innerText)]
    else match t.value
      case Some(v) => d["text" := Str(v)]
      case None => d
  }

  function Click(st: TrackerState, t: ClickTarget, button: int, x: int, y: int, now: int): TrackerState
    requires HasCurrentPage(st)
  {
    if TracksClick(t) then RecordEvent(st, "click", Fields(ClickData(button, x, y, t)), now) else st
  }

  /** A tracked click that does not repeat the last event adds one click to the
      log and one to the current record; any other click changes nothing. */
  lemma ClickCounted(st: TrackerState, t: ClickTarget, button: int, x: int, y: int, now: int)
    requires HasCurrentPage(st)
    ensures var r, i := Click(st, t, button, x, y, now), CurrentIndex(st);
      var counted := TracksClick(t) && st.lastEvent != Some(NewEvent(st, "click", Fields(ClickData(button, x, y, t)), now));
      (!counted ==> r == st) &&
      CountKind(r.session.systemEvents, "click") == CountKind(st.session.systemEvents, "click") + (if counted then 1 else 0) &&
      r.session.pages[i].totalClicks == st.session.pages[i].totalClicks + (if counted then 1 else 0)
  {
    if TracksClick(t) {
      var e := NewEvent(st, "click", Fields(ClickData(button, x, y, t)), now);
      RecordEventEffect(st, "click", Fields(ClickData(button, x, y, t)), now);
      CountKindAppend(st.session.systemEvents, e, "click");
    }
  }

  lemma ClickKeepsInv(st: TrackerState, t: ClickTarget, button: int, x: int, y: int, now: int)
    requires Inv(st)
    ensures Inv(Click(st, t, button, x, y, now))
  {
    if TracksClick(t) {
      RecordEventKeepsInv(st, "click", Fields(ClickData(button, x, y, t)), now);
    }
  }

  /** What the debounced input handler reads of the element when its timer fires. */
  datatype InputTarget = InputTarget(tagName: string, name: string, id: string, value: string)

  /** Only inputs and text areas with a non-empty value are recorded. */
  predicate TracksInput(t: InputTarget)
  {
    (t.tagName == "INPUT" || t.tagName == "TEXTAREA") && t.value != ""
  }

  /** The input payload: the tag, `name || id || null`, the first 50 characters of
      the value and its length in UTF-16 code units. */
  function InputData(t: InputTarget): (d: EventData)
    ensures d.Keys == {"tag", "name", "value", "length"}
    ensures d["value"].Str? && |d["value"].s| <= 50 && d["value"].s <= t.value
    ensures |t.value| <= 50 ==> d["value"] == Str(t.value)
    ensures d["length"] == Num(|Text.Utf16(t.value)|) && d["tag"] == Str(t.tagName)
    ensures d["name"] == (if t.name != "" then Str(t.name) else if t.id != "" then Str(t.id) else Null)
  {
    map["tag" := Str(t.tagName),
        "name" := (if t.name != "" then Str(t.name) else if t.id != "" then Str(t.id) else Null),
        "value" := Str(Text.Prefix(t.value, 50)),
        "length" := Num(|Text.Utf16(t.value)|)]
  }

  function Input(st: TrackerState, t: InputTarget, now: int): TrackerState
    requires HasCurrentPage(st)
  {
    if TracksInput(t) then RecordEvent(st, "input", Fields(InputData(t)), now) else st
  }

  /** A recorded input adds one input event to the log unless it repeats the last
      event; an untracked one changes nothing. */
  lemma InputCounted(st: TrackerState, t: InputTarget, now: int)
    requires HasCurrentPage(st)
    ensures var r := Input(st, t, now);
      var counted := TracksInput(t) && st.lastEvent != Some(NewEvent(st, "input", Fields(InputData(t)), now));
      (!counted ==> r == st) &&
      CountKind(r.session.systemEvents, "input") == CountKind(st.session.systemEvents, "input") + (if counted then 1 else 0) &&
      CountKind(r.session.systemEvents, "click") == CountKind(st.session.systemEvents, "click")
  {
    if TracksInput(t) {
      var e := NewEvent(st, "input", Fields(InputData(t)), now);
      RecordEventEffect(st, "input", Fields(InputData(t)), now);
      CountKindAppend(st.session.systemEvents, e, "input");
      CountKindAppend(st.session.systemEvents, e, "click");
    }
  }

  lemma InputKeepsInv(st: TrackerState, t: InputTarget, now: int)
    requires Inv(st)
    ensures Inv(Input(st, t, now))
  {
    if TracksInput(t) {
      RecordEventKeepsInv(st, "input", Fields(InputData(t)), now);
    }
  }

  // ---------------------------------------------------------------------------
  // Errors

  /** The error the `error` listener builds: `source`, `lineno` and `colno` from the
      event, the stack of `e.error` if any, two clock readings, an empty hash. */
  function WindowError(message: string, filename: string, lineno: int, colno: int, stack: Option<string>,
                       page: string, now: int, lastNow: int): TrackedError
  {
    TrackedError(message, Some(filename), Some(lineno), Some(colno), stack, now, page, None, "", lastNow)
  }

  /** The error the `unhandledrejection` listener builds from `String(reason)` and `reason?.stack`. */
  function RejectionError(reason: string, stack: Option<string>, page: string, now: int, lastNow: int): TrackedError
  {
    TrackedError(reason, None, None, None, stack, now, page, None, "", lastNow)
  }

  /** The error the `console.error` wrapper builds: its arguments, as strings, joined by spaces. */
  function ConsoleError(args: seq<string>, page: string, now: int, lastNow: int): TrackedError
  {
    TrackedError(Text.Join(args, " "), None, None, None, None, now, page, None, "", lastNow)
  }

  /** `errors.find(err => err.hash === hash)`, as the index of the first match. */
  function FindError(errors: seq<TrackedError>, hash: string): (r: Option<nat>)
    ensures r.Some? ==> r.value < |errors| && errors[r.value].hash == hash
    ensures r.Some? ==> forall j :: 0 <= j < r.value ==> errors[j].hash != hash
    ensures r.None? <==> forall j :: 0 <= j < |errors| ==> errors[j].hash != hash
  {
    FindErrorFrom(errors, hash, 0)
  }

  /** With no two entries sharing a hash, `find` on an entry's hash returns that entry. */
  lemma FindErrorTracked(errors: seq<TrackedError>, k: nat)
    requires ErrorsOk(errors) && k < |errors|
    ensures FindError(errors, errors[k].hash) == Some(k)
  {
    var f := FindError(errors, errors[k].hash);
    assert f.Some? && f.value <= k;
  }

  function FindErrorFrom(errors: seq<TrackedError>, hash: string, k: nat): (r: Option<nat>)
    requires k <= |errors|
    ensures r.Some? ==> k <= r.value < |errors| && errors[r.value].hash == hash
    ensures r.Some? ==> forall j :: k <= j < r.value ==> errors[j].hash != hash
    ensures r.None? <==> forall j :: k <= j < |errors| ==> errors[j].hash != hash
    decreases |errors| - k
  {
    if k == |errors| then None
    else if errors[k].hash == hash then Some(k)
    else FindErrorFrom(errors, hash, k + 1)
  }

  /** `count || 1`: an absent or zero count reads as 1. */
  function CountOrOne(count: Option<int>): int
  {
    if count.Some? && count.value != 0 then count.value else 1
  }

  /** Puts `key` in the payload when the optional field is present (`JSON.stringify`
      drops `undefined` fields). */
  function WithStr(d: EventData, key: string, v: Option<string>): EventData
  {
    if v.Some? then d[key := Str(v.value)] else d
  }

  function WithNum(d: EventData, key: string, v: Option<int>): EventData
  {
    if v.Some? then d[key := Num(v.value)] else d
  }

  /** The tracked error as `JSON.stringify` writes it: every field it has. */
  function ErrorData(e: TrackedError): (d: EventData)
    ensures e.count.Some? ==> "count" in d && d["count"] == Num(e.count.value)
  {
    var d := map["message" := Str(e.message), "timestamp" := Num(e.timestamp), "page" := Str(e.page),
                 "hash" := Str(e.hash), "lastOccurred" := Num(e.lastOccurred)];
    WithNum(WithStr(WithStr(WithNum(WithNum(d, "lineno", e.lineno), "colno", e.colno),
                            "source", e.source), "stack", e.stack), "count", e.count)
  }

  /** An event as it reads once its error is looked up: the event of a tracked
      error shows that error as it is now, every other event shows its own payload. */
  function Shown(e: RecordedEvent, errors: seq<TrackedError>): RecordedEvent
  {
    match e.data
    case Fields(_) => e
    case ErrorAt(k) => if k < |errors| then e.(data := Fields(ErrorData(errors[k]))) else e
  }

  /** The log as `JSON.stringify` writes it out, each error event showing its error. */
  function ShownLog(log: seq<RecordedEvent>, errors: seq<TrackedError>): (v: seq<RecordedEvent>)
    ensures |v| == |log| && forall k :: 0 <= k < |log| ==> v[k] == Shown(log[k], errors)
  {
    seq(|log|, k requires 0 <= k < |log| => Shown(log[k], errors))
  }

  /** A new error as it is stored: its hash, a count of 1 and the time it occurred. */
  function Stamped(err: TrackedError, now: int): TrackedError
  {
    err.(hash := ErrorHash.ErrorHash(err), count := Some(1), lastOccurred := now)
  }

  /** `trackError`: an error whose hash is already tracked raises that entry's count
      and time in place; a new one is stored and recorded as an event of `kind`
      whose payload is that very error object. `now` is the clock reading of
      `trackError`, `recordNow` that of `recordEvent`. */
  function TrackError(st: TrackerState, err: TrackedError, kind: string, now: int, recordNow: int): (r: TrackerState)
    requires HasCurrentPage(st)
    ensures HasCurrentPage(r)
  {
    var hash := ErrorHash.ErrorHash(err);
    match FindError(st.errors, hash)
    case Some(k) =>
      var prior := st.errors[k];
      st.(errors := st.errors[k := prior.(count := Some(CountOrOne(prior.count) + 1), lastOccurred := now)])
    case None =>
      var e := Stamped(err, now);
      RecordEvent(st.(errors := st.errors + [e]), kind, ErrorAt(|st.errors|), recordNow)
  }

  /** An error whose hash is already tracked only raises the count of that entry by
      one and sets its time. */
  lemma TrackErrorRepeat(st: TrackerState, err: TrackedError, kind: string, now: int, recordNow: int, k: nat)
    requires HasCurrentPage(st) && ErrorsOk(st.errors)
    requires k < |st.errors| && st.errors[k].hash == ErrorHash.ErrorHash(err)
    ensures var r := TrackError(st, err, kind, now, recordNow);
      |r.errors| == |st.errors| &&
      r.errors[k] == st.errors[k].(count := Some(st.errors[k].count.value + 1), lastOccurred := now) &&
      (forall j :: 0 <= j < |st.errors| && j != k ==> r.errors[j] == st.errors[j])
  {
    FindErrorTracked(st.errors, k);
  }

  /** Tracking an error whose hash is already tracked changes nothing but the errors
      and logs nothing: the events already logged for it refer to the entry, so
      they show the raised count without being touched. */
  lemma TrackErrorRepeatLogsNothing(st: TrackerState, err: TrackedError, kind: string, now: int, recordNow: int)
    requires HasCurrentPage(st)
    requires exists k :: 0 <= k < |st.errors| && st.errors[k].hash == ErrorHash.ErrorHash(err)
    ensures var r := TrackError(st, err, kind, now, recordNow);
      r == st.(errors := r.errors)
  {
  }

  /** An error whose hash is not tracked yet is appended with its hash and a count
      of 1, and is offered to `recordEvent` as an event of `kind`. */
  lemma TrackErrorNew(st: TrackerState, err: TrackedError, kind: string, now: int, recordNow: int)
    requires HasCurrentPage(st)
    requires forall j :: 0 <= j < |st.errors| ==> st.errors[j].hash != ErrorHash.ErrorHash(err)
    ensures var r, e := TrackError(st, err, kind, now, recordNow), Stamped(err, now);
      r.errors == st.errors + [e] && e.count == Some(1) && e.hash == ErrorHash.ErrorHash(err) &&
      r.session.systemEvents == Logged(st.session.systemEvents, st.lastEvent, NewEvent(st, kind, ErrorAt(|st.errors|), recordNow))
  {
    var e := Stamped(err, now);
    assert FindError(st.errors, ErrorHash.ErrorHash(err)).None?;
    assert TrackError(st, err, kind, now, recordNow) == RecordEvent(st.(errors := st.errors + [e]), kind, ErrorAt(|st.errors|), recordNow);
    RecordEventFrame(st.(errors := st.errors + [e]), kind, ErrorAt(|st.errors|), recordNow);
  }

  /** Appending a stamped error whose hash is not yet tracked keeps the error part
      of the invariant. */
  lemma StampedKeepsErrorsOk(errors: seq<TrackedError>, err: TrackedError, now: int)
    requires ErrorsOk(errors)
    requires forall j :: 0 <= j < |errors| ==> errors[j].hash != ErrorHash.ErrorHash(err)
    ensures ErrorsOk(errors + [Stamped(err, now)])
  {
  }

  /** Raising the count of entry `k` keeps the error part of the invariant. */
  lemma BumpKeepsErrorsOk(errors: seq<TrackedError>, k: nat, now: int)
    requires ErrorsOk(errors) && k < |errors|
    ensures var prior := errors[k];
      ErrorsOk(errors[k := prior.(count := Some(CountOrOne(prior.count) + 1), lastOccurred := now)])
  {
  }

  lemma TrackErrorKeepsInv(st: TrackerState, err: TrackedError, kind: string, now: int, recordNow: int)
    requires Inv(st)
    ensures Inv(TrackError(st, err, kind, now, recordNow))
  {
    var hash := ErrorHash.ErrorHash(err);
    match FindError(st.errors, hash)
    case Some(k) =>
      BumpKeepsErrorsOk(st.errors, k, now);
    case None =>
      var e := Stamped(err, now);
      StampedKeepsErrorsOk(st.errors, err, now);
      RecordEventKeepsInv(st.(errors := st.errors + [e]), kind, ErrorAt(|st.errors|), recordNow);
  }

  lemma BumpKeepsHashes(errors: seq<TrackedError>, k: nat, now: int)
    requires HashesOk(errors) && k < |errors|
    ensures var prior := errors[k];
      HashesOk(errors[k := prior.(count := Some(CountOrOne(prior.count) + 1), lastOccurred := now)])
  {
    var prior := errors[k];
    ErrorHash.ErrorHashOfSignature(prior.(count := Some(CountOrOne(prior.count) + 1), lastOccurred := now), prior);
  }

  lemma StampedKeepsHashes(errors: seq<TrackedError>, err: TrackedError, now: int)
    requires HashesOk(errors)
    ensures HashesOk(errors + [Stamped(err, now)])
  {
    ErrorHash.ErrorHashOfSignature(Stamped(err, now), err);
  }

  /** Tracking keeps every entry's hash the hash of its own message and stack. */
  lemma TrackErrorKeepsHashes(st: TrackerState, err: TrackedError, kind: string, now: int, recordNow: int)
    requires HasCurrentPage(st) && HashesOk(st.errors)
    ensures HashesOk(TrackError(st, err, kind, now, recordNow).errors)
  {
    match FindError(st.errors, ErrorHash.ErrorHash(err))
    case Some(k) =>
      BumpKeepsHashes(st.errors, k, now);
    case None =>
      var e := Stamped(err, now);
      RecordEventFrame(st.(errors := st.errors + [e]), kind, ErrorAt(|st.errors|), recordNow);
      StampedKeepsHashes(st.errors, err, now);
  }

  /** Errors are deduplicated by message and stack: the same error tracked twice
      leaves one entry for it, with a count of 2. */
  lemma SameErrorTwice(st: TrackerState, err: TrackedError, again: TrackedError, kind: string,
                       now1: int, recordNow1: int, now2: int, recordNow2: int)
    requires Inv(st)
    requires again.message == err.message && again.stack == err.stack
    requires forall j :: 0 <= j < |st.errors| ==> st.errors[j].hash != ErrorHash.ErrorHash(err)
    ensures var r := TrackError(TrackError(st, err, kind, now1, recordNow1), again, kind, now2, recordNow2);
      |r.errors| == |st.errors| + 1 && r.errors[|st.errors|].count == Some(2) &&
      r.errors[|st.errors|].lastOccurred == now2
  {
    var s1 := TrackError(st, err, kind, now1, recordNow1);
    TrackErrorNew(st, err, kind, now1, recordNow1);
    TrackErrorKeepsInv(st, err, kind, now1, recordNow1);
    ErrorHash.ErrorHashOfSignature(again, err);
    TrackErrorRepeat(s1, again, kind, now2, recordNow2, |st.errors|);
  }

  /** Whatever the error, afterwards one tracked entry carries its hash. */
  lemma TrackErrorTracks(st: TrackerState, err: TrackedError, kind: string, now: int, recordNow: int)
    requires HasCurrentPage(st)
    ensures var r := TrackError(st, err, kind, now, recordNow);
      |st.errors| <= |r.errors| && exists j :: 0 <= j < |r.errors| && r.errors[j].hash == ErrorHash.ErrorHash(err)
  {
    var hash := ErrorHash.ErrorHash(err);
    var r := TrackError(st, err, kind, now, recordNow);
    match FindError(st.errors, hash)
    case Some(k) =>
      assert r.errors[k].hash == hash;
    case None =>
      TrackErrorNew(st, err, kind, now, recordNow);
      assert r.errors[|st.errors|].hash == hash;
  }

  /** `trackError` changes the errors, the log, the page records and the last
      event, and nothing else. */
  lemma TrackErrorFrame(st: TrackerState, err: TrackedError, kind: string, now: int, recordNow: int)
    requires HasCurrentPage(st)
    ensures var r := TrackError(st, err, kind, now, recordNow);
      r == st.(errors := r.errors, lastEvent := r.lastEvent,
               session := st.session.(pages := r.session.pages, systemEvents := r.session.systemEvents))
  {
    match FindError(st.errors, ErrorHash.ErrorHash(err))
    case Some(_) =>
    case None =>
      RecordEventFrame(st.(errors := st.errors + [Stamped(err, now)]), kind, ErrorAt(|st.errors|), recordNow);
  }

  /** Under the invariant a new error is never taken as a repeat: its event, which
      refers to the new entry, is appended to the log. */
  lemma TrackErrorNewLogged(st: TrackerState, err: TrackedError, kind: string, now: int, recordNow: int)
    requires Inv(st)
    requires forall j :: 0 <= j < |st.errors| ==> st.errors[j].hash != ErrorHash.ErrorHash(err)
    ensures var r := TrackError(st, err, kind, now, recordNow);
      r.session.systemEvents == st.session.systemEvents + [NewEvent(st, kind, ErrorAt(|st.errors|), recordNow)]
  {
    TrackErrorNew(st, err, kind, now, recordNow);
    var log := st.session.systemEvents;
    if st.lastEvent.Some? {
      assert st.lastEvent.value == log[|log| - 1];
    }
  }

  /** What tracking a new error leaves, under the invariant: the stamped error
      appended, one event referring to it appended to the log, the invariant kept. */
  lemma NewErrorStep(st: TrackerState, err: TrackedError, kind: string, now: int, recordNow: int)
    requires Inv(st)
    requires forall j :: 0 <= j < |st.errors| ==> st.errors[j].hash != ErrorHash.ErrorHash(err)
    ensures var s1, n := TrackError(st, err, kind, now, recordNow), |st.session.systemEvents|;
      Inv(s1) && s1.errors == st.errors + [Stamped(err, now)] &&
      |s1.session.systemEvents| == n + 1 && s1.session.systemEvents[n].data == ErrorAt(|st.errors|)
  {
    TrackErrorNewLogged(st, err, kind, now, recordNow);
    TrackErrorNew(st, err, kind, now, recordNow);
    TrackErrorKeepsInv(st, err, kind, now, recordNow);
  }

  /** The event of an error is the error object itself: when the same error comes
      again, the event logged for it the first time reads with a count of 2,
      although the log has not changed. */
  lemma RepeatShowsInLog(st: TrackerState, err: TrackedError, again: TrackedError, kind: string,
                         now1: int, recordNow1: int, now2: int, recordNow2: int)
    requires Inv(st)
    requires again.message == err.message && again.stack == err.stack
    requires forall j :: 0 <= j < |st.errors| ==> st.errors[j].hash != ErrorHash.ErrorHash(err)
    ensures var s1 := TrackError(st, err, kind, now1, recordNow1);
      var r := TrackError(s1, again, kind, now2, recordNow2);
      var n := |st.session.systemEvents|;
      |s1.session.systemEvents| == n + 1 && r.session.systemEvents == s1.session.systemEvents &&
      s1.session.systemEvents[n].data == ErrorAt(|st.errors|) && |r.errors| == |s1.errors| == |st.errors| + 1 &&
      s1.errors[|st.errors|].count == Some(1) && r.errors[|st.errors|].count == Some(2) &&
      Shown(s1.session.systemEvents[n], s1.errors).data == Fields(ErrorData(s1.errors[|st.errors|])) &&
      Shown(r.session.systemEvents[n], r.errors).data == Fields(ErrorData(r.errors[|st.errors|]))
  {
    var s1 := TrackError(st, err, kind, now1, recordNow1);
    NewErrorStep(st, err, kind, now1, recordNow1);
    ErrorHash.ErrorHashOfSignature(again, err);
    assert s1.errors[|st.errors|].hash == ErrorHash.ErrorHash(again);
    TrackErrorRepeat(s1, again, kind, now2, recordNow2, |st.errors|);
    TrackErrorRepeatLogsNothing(s1, again, kind, now2, recordNow2);
  }

  // ---------------------------------------------------------------------------
  // Fingerprint and bot detection

  /** What `FingerprintJS.load()` and `fp.get()` come to: the visitor id, or
      `String(error)` of what either threw. */
  datatype FingerprintOutcome = VisitorId(id: string) | FingerprintThrew(error: string)

  /** The first argument the `catch` of `initFingerprint` passes to `console.error`. */
  const FINGERPRINT_ERROR: string := "\U{274C} Fingerprint error:"

  /** What the wrapped `console.error` tracks when the fingerprint fails. */
  function FingerprintError(error: string, page: string, now: int, lastNow: int): TrackedError
  {
    ConsoleError([FINGERPRINT_ERROR, error], page, now, lastNow)
  }

  /** `initFingerprint`: keep the visitor id in the tracker and in the user info.
      When the library throws, the `catch` calls `console.error`, which the
      constructor has already wrapped, so the failure is tracked as a
      `console_error` before both fingerprints are set to `null`. `now` and
      `lastNow` are the wrapper's clock readings, `trackNow` and `recordNow` those
      of `trackError` and `recordEvent`. */
  function InitFingerprint(st: TrackerState, outcome: FingerprintOutcome,
                           now: int, lastNow: int, trackNow: int, recordNow: int): (r: TrackerState)
    requires HasCurrentPage(st)
    ensures HasCurrentPage(r)
  {
    match outcome
    case VisitorId(id) =>
      st.(fingerprint := Some(id), userInfo := st.userInfo.(fingerprint := Some(id)))
    case FingerprintThrew(error) =>
      var t := TrackError(st, FingerprintError(error, st.pageUrl, now, lastNow), "console_error", trackNow, recordNow);
      t.(fingerprint := None, userInfo := t.userInfo.(fingerprint := None))
  }

  /** The detector `initBotDetection` creates with `new BotDetector()`: no VPN
      check URL, whatever the signals say. */
  function TrackerSignals(signals: BotDetector.Signals): BotDetector.Signals
  {
    signals.(vpnCheckUrl := "")
  }

  /** `initBotDetection`: create the detector, run it and copy its verdict into the user info. */
  function InitBotDetection(st: TrackerState, signals: BotDetector.Signals): TrackerState
  {
    var info := BotDetector.Result(TrackerSignals(signals));
    st.(detector := true, botInfo := Some(info), userInfo := st.userInfo.(isBot := Some(info.isBot)))
  }

  /** `isBot()`: `botInfo?.isBot ?? false`. */
  predicate IsBot(st: TrackerState)
  {
    st.botInfo.Some? && st.botInfo.value.isBot
  }

  /** `isBotAsync()`: answer from the stored result; without one, run the detector
      (without touching the user info). Before `initBotDetection` has created the
      detector, `this.botDetector.detect()` throws and the promise is rejected:
      the answer is then `None`. */
  function IsBotAsync(st: TrackerState, signals: BotDetector.Signals): (TrackerState, Option<bool>)
  {
    if st.botInfo.Some? then (st, Some(st.botInfo.value.isBot))
    else if !st.detector then (st, None)
    else
      var r := st.(botInfo := Some(BotDetector.Result(TrackerSignals(signals))));
      (r, Some(r.botInfo.value.isBot))
  }

  /** `updateUserInfo`: copy the fingerprint and the bot verdict into the user info. */
  function UpdateUserInfo(st: TrackerState): TrackerState
  {
    st.(userInfo := st.userInfo.(fingerprint := st.fingerprint, isBot := Some(IsBot(st))))
  }

  /** A visitor id is kept in the tracker and mirrored in the user info, and
      nothing else changes. */
  lemma FingerprintMirrored(st: TrackerState, id: string, now: int, lastNow: int, trackNow: int, recordNow: int)
    requires HasCurrentPage(st)
    ensures var r := InitFingerprint(st, VisitorId(id), now, lastNow, trackNow, recordNow);
      r.fingerprint == Some(id) && r.userInfo == st.userInfo.(fingerprint := Some(id)) &&
      r == st.(fingerprint := r.fingerprint, userInfo := r.userInfo)
  {
  }

  /** A failing fingerprint is tracked as the console error
      "❌ Fingerprint error: <error>" and leaves both fingerprints `null`; apart
      from those, the state is the one tracking that error leaves. */
  lemma FingerprintFailureTracked(st: TrackerState, error: string, now: int, lastNow: int, trackNow: int, recordNow: int)
    requires HasCurrentPage(st)
    ensures var err := FingerprintError(error, st.pageUrl, now, lastNow);
      var t := TrackError(st, err, "console_error", trackNow, recordNow);
      var r := InitFingerprint(st, FingerprintThrew(error), now, lastNow, trackNow, recordNow);
      err.message == FINGERPRINT_ERROR + " " + error && err.stack == None &&
      r.fingerprint == None && r.userInfo == st.userInfo.(fingerprint := None) &&
      r == t.(fingerprint := None, userInfo := r.userInfo) &&
      |st.errors| <= |r.errors| && exists j :: 0 <= j < |r.errors| && r.errors[j].hash == ErrorHash.ErrorHash(err)
  {
    var err := FingerprintError(error, st.pageUrl, now, lastNow);
    Text.JoinPair(FINGERPRINT_ERROR, error, " ");
    TrackErrorTracks(st, err, "console_error", trackNow, recordNow);
    TrackErrorFrame(st, err, "console_error", trackNow, recordNow);
  }

  /** After detection the tracker is a bot exactly when the raw score of the
      signals, without a VPN check, reaches the threshold; the user info says the
      same, the detector exists, and it never reports a VPN verdict. */
  lemma BotVerdictMirrored(st: TrackerState, signals: BotDetector.Signals)
    ensures var r := InitBotDetection(st, signals);
      (IsBot(r) <==> BotDetector.RawScore(TrackerSignals(signals)) >= BotDetector.BOT_THRESHOLD) &&
      r.userInfo.isBot == Some(IsBot(r)) && r.detector &&
      r.botInfo == Some(BotDetector.Result(TrackerSignals(signals))) && r.botInfo.value.vpn == None
  {
    BotDetector.IsBotIffThreshold(TrackerSignals(signals));
  }

  /** `isBotAsync` runs the detector at most once, and only once it exists: with a
      stored result it changes nothing; before `initBotDetection` it is rejected
      and changes nothing; otherwise it stores the detector's result. Whenever it
      answers, it answers what `isBot()` answers afterwards. */
  lemma IsBotAsyncOnce(st: TrackerState, signals: BotDetector.Signals)
    ensures var (r, answer) := IsBotAsync(st, signals);
      (answer.None? <==> st.botInfo.None? && !st.detector) &&
      (answer.Some? ==> r.botInfo.Some? && (answer.value <==> IsBot(r))) &&
      r.userInfo == st.userInfo && r.detector == st.detector &&
      (st.botInfo.Some? || !st.detector ==> r == st) &&
      (st.botInfo.None? && st.detector ==> r == st.(botInfo := Some(BotDetector.Result(TrackerSignals(signals)))))
  {
  }

  /** Once `initBotDetection` has run, `isBotAsync` answers its verdict and changes nothing. */
  lemma IsBotAsyncAfterDetection(st: TrackerState, signals: BotDetector.Signals, later: BotDetector.Signals)
    ensures var d := InitBotDetection(st, signals);
      IsBotAsync(d, later) == (d, Some(IsBot(d)))
  {
  }

  /** The fingerprint and bot steps keep the invariant. */
  lemma IdentityStepsKeepInv(st: TrackerState, outcome: FingerprintOutcome, now: int, lastNow: int, trackNow: int,
                             recordNow: int, signals: BotDetector.Signals)
    requires Inv(st)
    ensures Inv(InitFingerprint(st, outcome, now, lastNow, trackNow, recordNow))
    ensures Inv(InitBotDetection(st, signals)) && Inv(IsBotAsync(st, signals).0)
  {
    if outcome.FingerprintThrew? {
      var err := FingerprintError(outcome.error, st.pageUrl, now, lastNow);
      TrackErrorKeepsInv(st, err, "console_error", trackNow, recordNow);
    }
  }

  lemma UpdateUserInfoKeepsInv(st: TrackerState)
    requires Inv(st)
    ensures Inv(UpdateUserInfo(st))
  {
  }

  // ---------------------------------------------------------------------------
  // endSession and getEvents

  /** The JSON payload `endSession` sends, field by field. */
  datatype Payload = Payload(
    errors: seq<TrackedError>,
    userId: Option<string>,
    businessId: Option<string>,
    userInfo: UserInfo,
    fingerprint: Option<string>,
    trackerEvents: seq<RecordedEvent>,
    sessionRecord: seq<RRWebEvent>,
    durationMs: int,
    entryPage: string,
    exitPage: string,
    totalClicks: nat,
    totalInputs: nat,
    totalPagesVisited: nat)

  datatype Ending = Ending(state: TrackerState, payload: Payload)

  function SessionEndData(duration: int, maxScroll: int): EventData
  {
    map["duration" := Num(duration), "maxScroll" := Num(maxScroll)]
  }

  /** The state `endSession` reaches just before it records `session_end`: user info
      refreshed, the current record's duration closed, the exit URL set, and the
      last event forgotten so that `session_end` is never taken as a repeat. */
  function Ending0(st: TrackerState, now: int): (r: TrackerState)
    requires HasCurrentPage(st)
    ensures HasCurrentPage(r)
  {
    var w := WithDuration(UpdateUserInfo(st), now - st.pageStartTime);
    w.(lastEvent := None, session := w.session.(exitUrl := st.pageUrl))
  }

  /** The event `session_end`, with the session duration and the scroll mark. */
  function EndEvent(st: TrackerState, now: int, recordNow: int): RecordedEvent
  {
    NewEvent(st, "session_end", Fields(SessionEndData(now - st.sessionStartTime, st.maxScroll)), recordNow)
  }

  function EndState(st: TrackerState, now: int, recordNow: int): TrackerState
    requires HasCurrentPage(st)
  {
    RecordEvent(Ending0(st, now), "session_end", Fields(SessionEndData(now - st.sessionStartTime, st.maxScroll)), recordNow)
  }

  /** `endSession` records `session_end` on the state `Ending0` reaches. */
  lemma EndStateSteps(st: TrackerState, now: int, recordNow: int)
    requires HasCurrentPage(st)
    ensures EndState(st, now, recordNow) ==
            RecordEvent(Ending0(st, now), "session_end", Fields(SessionEndData(now - st.sessionStartTime, st.maxScroll)), recordNow)
  {
  }

  /** The payload built from the final state; `userId ?? options.userId` for the user. */
  function PayloadOf(r: TrackerState, userId: Option<string>, rrwebEvents: seq<RRWebEvent>, duration: int): Payload
  {
    var log := r.session.systemEvents;
    Payload(r.errors, if userId.Some? then userId else r.options.userId, r.options.businessId,
            r.userInfo, r.fingerprint, ShownLog(log, r.errors), rrwebEvents, duration, r.session.entryUrl, r.pageUrl,
            CountKind(log, "click"), CountKind(log, "input"), |NavigationUrls(log)| + 1)
  }

  /** `endSession`: `now` is its clock reading, `recordNow` that of `recordEvent`.
      Sending the payload is left to the caller. */
  function EndSession(st: TrackerState, userId: Option<string>, rrwebEvents: seq<RRWebEvent>,
                      now: int, recordNow: int): Ending
    requires HasCurrentPage(st)
  {
    var r := EndState(st, now, recordNow);
    Ending(r, PayloadOf(r, userId, rrwebEvents, now - st.sessionStartTime))
  }

  lemma Ending0Effect(st: TrackerState, now: int)
    requires HasCurrentPage(st)
    ensures var w, i := Ending0(st, now), CurrentIndex(st);
      w.lastEvent == None && w.session.exitUrl == st.pageUrl && w.pageUrl == st.pageUrl &&
      w.sessionStartTime == st.sessionStartTime && w.maxScroll == st.maxScroll && w.errors == st.errors &&
      w.options == st.options && w.fingerprint == st.fingerprint &&
      w.userInfo == st.userInfo.(fingerprint := st.fingerprint, isBot := Some(IsBot(st))) &&
      w.session.systemEvents == st.session.systemEvents && w.session.entryUrl == st.session.entryUrl &&
      SamePaths(w.session.pages, st.session.pages) && CurrentIndex(w) == i &&
      w.session.pages[i].duration == now - st.pageStartTime
  {
    WithDurationEffect(UpdateUserInfo(st), now - st.pageStartTime);
    FindPageSamePaths(Ending0(st, now).session.pages, st.session.pages, st.pageUrl);
  }

  lemma EndStateLog(st: TrackerState, now: int, recordNow: int)
    requires HasCurrentPage(st)
    ensures var r := EndState(st, now, recordNow);
      r.session.systemEvents == st.session.systemEvents + [EndEvent(st, now, recordNow)] &&
      r.lastEvent == Some(EndEvent(st, now, recordNow))
  {
    var w := Ending0(st, now);
    var data := Fields(SessionEndData(now - st.sessionStartTime, st.maxScroll));
    assert EndState(st, now, recordNow) == RecordEvent(w, "session_end", data, recordNow);
    Ending0Effect(st, now);
    RecordEventFrame(w, "session_end", data, recordNow);
    RecordEventLast(w, "session_end", data, recordNow);
    assert NewEvent(w, "session_end", data, recordNow) == EndEvent(st, now, recordNow);
  }

  /** `session_end` is always logged, even right after an identical event, as the
      last event; nothing else is added to the log, and the payload carries the
      log with every error event showing its error as it is at the end. */
  lemma EndSessionLogsEnd(st: TrackerState, userId: Option<string>, rrwebEvents: seq<RRWebEvent>, now: int, recordNow: int)
    requires HasCurrentPage(st)
    ensures var r := EndSession(st, userId, rrwebEvents, now, recordNow);
      r.state.session.systemEvents == st.session.systemEvents + [EndEvent(st, now, recordNow)] &&
      r.state.lastEvent == Some(EndEvent(st, now, recordNow)) &&
      r.payload.trackerEvents == ShownLog(r.state.session.systemEvents, r.state.errors)
  {
    assert EndSession(st, userId, rrwebEvents, now, recordNow).state == EndState(st, now, recordNow);
    EndStateLog(st, now, recordNow);
  }

  /** The totals of the payload are those of the log before `session_end`:
      clicks, inputs, and one more than the distinct navigation URLs. */
  lemma EndSessionTotals(st: TrackerState, userId: Option<string>, rrwebEvents: seq<RRWebEvent>, now: int, recordNow: int)
    requires HasCurrentPage(st)
    ensures var p, log := EndSession(st, userId, rrwebEvents, now, recordNow).payload, st.session.systemEvents;
      p.totalClicks == CountKind(log, "click") && p.totalInputs == CountKind(log, "input") &&
      p.totalPagesVisited == |NavigationUrls(log)| + 1
  {
    var e := EndEvent(st, now, recordNow);
    EndSessionLogsEnd(st, userId, rrwebEvents, now, recordNow);
    CountKindAppend(st.session.systemEvents, e, "click");
    CountKindAppend(st.session.systemEvents, e, "input");
    NavigationUrlsAppend(st.session.systemEvents, e);
  }

  /** The identity part of the payload: the user id given, else the configured one;
      the business id; the fingerprint and the bot verdict copied into the user
      info; the session duration; the entry page and the current path as exit page. */
  lemma EndSessionIdentity(st: TrackerState, userId: Option<string>, rrwebEvents: seq<RRWebEvent>, now: int, recordNow: int)
    requires HasCurrentPage(st)
    ensures var p := EndSession(st, userId, rrwebEvents, now, recordNow).payload;
      p.userId == (if userId.Some? then userId else st.options.userId) &&
      p.businessId == st.options.businessId && p.fingerprint == st.fingerprint &&
      p.userInfo.fingerprint == st.fingerprint && p.userInfo.isBot == Some(IsBot(st)) &&
      p.durationMs == now - st.sessionStartTime && p.sessionRecord == rrwebEvents &&
      p.entryPage == st.session.entryUrl && p.exitPage == st.pageUrl && p.errors == st.errors
  {
    var w := Ending0(st, now);
    Ending0Effect(st, now);
    RecordEventFrame(w, "session_end", Fields(SessionEndData(now - st.sessionStartTime, st.maxScroll)), recordNow);
  }

  /** `endSession` closes the current record with `duration = now - pageStartTime`
      and sets the exit URL to the current path. */
  lemma EndSessionClosesPage(st: TrackerState, userId: Option<string>, rrwebEvents: seq<RRWebEvent>, now: int, recordNow: int)
    requires HasCurrentPage(st)
    ensures var r, i := EndSession(st, userId, rrwebEvents, now, recordNow).state, CurrentIndex(st);
      SamePaths(r.session.pages, st.session.pages) && CurrentIndex(r) == i &&
      r.session.pages[i].duration == now - st.pageStartTime && r.session.exitUrl == st.pageUrl
  {
    assert EndSession(st, userId, rrwebEvents, now, recordNow).state == EndState(st, now, recordNow);
    EndStateSteps(st, now, recordNow);
    var w := Ending0(st, now);
    Ending0Effect(st, now);
    RecordEventKeepsRecordFields(w, "session_end", Fields(SessionEndData(now - st.sessionStartTime, st.maxScroll)), recordNow);
    RecordEventFrame(w, "session_end", Fields(SessionEndData(now - st.sessionStartTime, st.maxScroll)), recordNow);
  }

  /** The invariant only reads the page table, the log, the current path, the
      scroll mark, the session start and the exit URL, and asks of the errors only
      that they be well formed and no fewer; forgetting the last event cannot
      break it either. */
  lemma InvFrame(a: TrackerState, b: TrackerState)
    requires Inv(a)
    requires b.session.pages == a.session.pages && b.session.systemEvents == a.session.systemEvents
    requires b.pageUrl == a.pageUrl && b.maxScroll == a.maxScroll && ErrorsOk(b.errors) && |a.errors| <= |b.errors|
    requires b.sessionStartTime == a.sessionStartTime && b.session.exitUrl == b.pageUrl
    requires b.lastEvent == a.lastEvent || b.lastEvent == None
    ensures Inv(b)
  {
  }

  lemma Ending0KeepsInv(st: TrackerState, now: int)
    requires Inv(st)
    ensures Inv(Ending0(st, now))
  {
    var d := now - st.pageStartTime;
    WithDurationKeepsInv(st, d);
    assert Ending0(st, now).session.pages == WithDuration(st, d).session.pages;
    InvFrame(WithDuration(st, d), Ending0(st, now));
  }

  /** `endSession` keeps the invariant. */
  lemma EndStateKeepsInv(st: TrackerState, now: int, recordNow: int)
    requires Inv(st)
    ensures Inv(EndState(st, now, recordNow))
  {
    var data := Fields(SessionEndData(now - st.sessionStartTime, st.maxScroll));
    EndStateSteps(st, now, recordNow);
    Ending0KeepsInv(st, now);
    RecordEventKeepsInv(Ending0(st, now), "session_end", data, recordNow);
  }

  /** Under the invariant the payload's click total is also the sum of the pages'
      click counters. */
  lemma EndSessionClicksAgree(st: TrackerState, userId: Option<string>, rrwebEvents: seq<RRWebEvent>, now: int, recordNow: int)
    requires Inv(st)
    ensures var r := EndSession(st, userId, rrwebEvents, now, recordNow);
      r.payload.totalClicks == SumClicks(r.state.session.pages)
  {
    assert EndSession(st, userId, rrwebEvents, now, recordNow).state == EndState(st, now, recordNow);
    EndStateKeepsInv(st, now, recordNow);
  }

  /** The three totals `getEvents` computes. */
  datatype Totals = Totals(totalClicks: nat, totalInputs: nat, totalPagesVisited: nat)

  /** The `session` of the result: the session object's fields with the entry
      and exit pages and the totals added. */
  datatype SessionSummary = SessionSummary(session: Session, entryPage: string, exitPage: string, totals: Totals)

  /** What `getEvents` returns: the `Events` object's fields, the totals, and the
      session with its summary. The error events in it refer to `errors`. */
  datatype Summary = Summary(
    leadId: Option<string>,
    createdAt: string,
    errors: seq<TrackedError>,
    userInfo: UserInfo,
    totals: Totals,
    session: SessionSummary)

  /** `getEvents`: the pages visited are the distinct values among the entry URL
      and the navigation URLs. */
  function GetEvents(st: TrackerState): Summary
  {
    var log := st.session.systemEvents;
    var totals := Totals(CountKind(log, "click"), CountKind(log, "input"),
                         |{Str(st.session.entryUrl)} + NavigationUrls(log)|);
    Summary(st.leadId, st.createdAt, st.errors, st.userInfo, totals,
            SessionSummary(st.session, st.session.entryUrl, st.pageUrl, totals))
  }

  /** The two visited-pages counts differ: `endSession` adds one to the number of
      distinct navigation URLs, `getEvents` counts the entry URL among them, so the
      two agree exactly when the entry URL is not one of the navigation URLs. */
  lemma VisitedCountsAgree(st: TrackerState, userId: Option<string>, rrwebEvents: seq<RRWebEvent>, now: int, recordNow: int)
    requires HasCurrentPage(st)
    ensures EndSession(st, userId, rrwebEvents, now, recordNow).payload.totalPagesVisited == GetEvents(st).totals.totalPagesVisited
            <==> Str(st.session.entryUrl) !in NavigationUrls(st.session.systemEvents)
  {
    var urls := NavigationUrls(st.session.systemEvents);
    EndSessionTotals(st, userId, rrwebEvents, now, recordNow);
    if Str(st.session.entryUrl) in urls {
      assert {Str(st.session.entryUrl)} + urls == urls;
    } else {
      assert |{Str(st.session.entryUrl)} + urls| == |urls| + 1;
    }
  }

  /** Under the invariant the summary's click total is the sum of the pages'
      counters, its exit page is the session's exit URL, and the session carries
      the same totals as the summary. */
  lemma GetEventsClicks(st: TrackerState)
    requires Inv(st)
    ensures var g := GetEvents(st);
      g.totals.totalClicks == SumClicks(st.session.pages) && g.session.totals == g.totals &&
      g.session.exitPage == g.session.session.exitUrl
  {
  }

  /** The pages-visited total is at least 1 (the entry page) and at most one more
      than the number of navigation events. */
  lemma {:induction false} GetEventsVisitedBounds(st: TrackerState)
    ensures var g, log := GetEvents(st), st.session.systemEvents;
      1 <= g.totals.totalPagesVisited <= CountKind(log, "navigation") + 1
  {
    var urls := NavigationUrls(st.session.systemEvents);
    var all := {Str(st.session.entryUrl)} + urls;
    assert Str(st.session.entryUrl) in all;
    assert all == {Str(st.session.entryUrl)} + (urls - {Str(st.session.entryUrl)});
    assert |urls - {Str(st.session.entryUrl)}| <= |urls|;
  }
}
