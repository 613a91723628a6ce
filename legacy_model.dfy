/** The older tracker of src/SystemTracker.ts taken as a value: its fields
    together with the part of the shared `Events` object it changes. It has no
    navigation handling, so its path never changes; it compares events before
    they are stamped with that path; and its scroll handler has a rule of its
    own. The class `LegacyTracker.SystemTracker` performs these steps on its
    fields. Every `Date.now()` the source reads is a parameter of its own. */
module LegacyModel {

  import opened Interfaces
  import opened Pages
  import SessionModel

  /** The tracker's fields, the user info it reports and the session it writes to.
      `lastEvent` is the event last recorded, before the path is added to it. */
  datatype LegacyState = LegacyState(
    pageUrl: string,
    startTime: int,
    maxScroll: int,
    lastEvent: Option<RecordedEvent>,
    userInfo: UserInfo,
    session: Session)

  predicate HasCurrentPage(st: LegacyState)
  {
    HasPage(st.session.pages, st.pageUrl)
  }

  /** The current record, as an index into the page table. */
  function CurrentIndex(st: LegacyState): nat
    requires HasCurrentPage(st)
  {
    PageIndex(st.session.pages, st.pageUrl)
  }

  /** The page table with record `i` replaced by `p`. */
  function WithPage(st: LegacyState, i: nat, p: Page): (r: LegacyState)
    requires i < |st.session.pages| && p.page == st.session.pages[i].page
    ensures HasCurrentPage(r) <==> HasCurrentPage(st)
    ensures SamePaths(r.session.pages, st.session.pages)
  {
    ReplaceKeepsPaths(st.session.pages, i, p, st.pageUrl);
    st.(session := st.session.(pages := st.session.pages[i := p]))
  }

  // ---------------------------------------------------------------------------
  // Construction

  /** The constructor on a given `Events` object: the clock read once for the
      start time, then `initPage` for the window's path. */
  function Initial(userInfo: UserInfo, session: Session, path: string, now: int): (r: LegacyState)
    ensures r.pageUrl == path && r.startTime == now && r.maxScroll == 0 && r.lastEvent == None
    ensures r.userInfo == userInfo && r.session == session.(pages := InitPage(session.pages, path))
  {
    LegacyState(path, now, 0, None, userInfo, session.(pages := InitPage(session.pages, path)))
  }

  // ---------------------------------------------------------------------------
  // recordEvent

  /** The event `recordEvent` builds. `timestamp` and `relativeTime` come from two
      separate readings of the clock; the event carries no path. */
  function NewEvent(st: LegacyState, kind: string, data: EventData, now: int, relNow: int): (e: RecordedEvent)
    ensures e.kind == kind && e.data == Fields(data) && e.page == None
    ensures e.timestamp == now && e.relativeTime == relNow - st.startTime
  {
    RecordedEvent(kind, Fields(data), now, relNow - st.startTime, None)
  }

  /** `{ ...event, page: this.pageUrl }`: the copy that goes to the session log. */
  function Stamp(e: RecordedEvent, url: string): (s: RecordedEvent)
    ensures s.page == Some(url)
    ensures s.(page := e.page) == e
  {
    e.(page := Some(url))
  }

  /** Two events without a path are equal exactly when their stamped copies are. */
  lemma StampInjective(a: RecordedEvent, b: RecordedEvent, url: string)
    requires a.page.None? && b.page.None?
    ensures Stamp(a, url) == Stamp(b, url) <==> a == b
  {
    if Stamp(a, url) == Stamp(b, url) {
      assert a == Stamp(a, url).(page := None) == Stamp(b, url).(page := None) == b;
    }
  }

  /** `recordEvent`: nothing when the new event equals the last one recorded;
      otherwise the event goes to the current record, a click counts there, and
      the stamped copy goes to the session log. */
  function RecordEvent(st: LegacyState, kind: string, data: EventData, now: int, relNow: int): (r: LegacyState)
    requires HasCurrentPage(st)
    ensures HasCurrentPage(r)
  {
    var e := NewEvent(st, kind, data, now, relNow);
    if st.lastEvent == Some(e) then st
    else
      var i := CurrentIndex(st);
      var p := st.session.pages[i];
      var p' := p.(events := p.events + [e],
                   totalClicks := if kind == "click" then p.totalClicks + 1 else p.totalClicks);
      var r := st.(lastEvent := Some(e),
                   session := st.session.(pages := st.session.pages[i := p'],
                                          systemEvents := st.session.systemEvents + [Stamp(e, st.pageUrl)]));
      assert r.session.pages[i].page == r.pageUrl;
      r
  }

  /** A repeated event changes nothing. Any other event is appended to the
      current record without a path and to the session log with it, counts as a
      click on that record exactly when its kind is "click", becomes the last
      event, and leaves every other record and field as it was. */
  lemma RecordEventEffect(st: LegacyState, kind: string, data: EventData, now: int, relNow: int)
    requires HasCurrentPage(st)
    ensures var e, r := NewEvent(st, kind, data, now, relNow), RecordEvent(st, kind, data, now, relNow);
      (st.lastEvent == Some(e) ==> r == st) &&
      (st.lastEvent != Some(e) ==>
         var i := CurrentIndex(st);
         r.lastEvent == Some(e) &&
         r.session.systemEvents == st.session.systemEvents + [Stamp(e, st.pageUrl)] &&
         |r.session.pages| == |st.session.pages| &&
         r.session.pages[i].events == st.session.pages[i].events + [e] &&
         r.session.pages[i].totalClicks == st.session.pages[i].totalClicks + (if kind == "click" then 1 else 0) &&
         r.session.pages[i].page == st.session.pages[i].page &&
         r.session.pages[i].duration == st.session.pages[i].duration &&
         r.session.pages[i].percentageScroll == st.session.pages[i].percentageScroll &&
         (forall j :: 0 <= j < |st.session.pages| && j != i ==> r.session.pages[j] == st.session.pages[j]) &&
         r.(lastEvent := st.lastEvent, session := r.session.(pages := st.session.pages, systemEvents := st.session.systemEvents)) == st)
  {
  }

  // ---------------------------------------------------------------------------
  // The invariants

  /** What every reachable state keeps, whatever the `Events` object held
      before: a record for the tracker's path, and a scroll mark that is never
      negative. */
  predicate Inv(st: LegacyState)
  {
    HasCurrentPage(st) && st.maxScroll >= 0
  }

  /** A record's click counter counts its click events, and its events carry no path. */
  predicate PageOk(p: Page)
  {
    p.totalClicks == CountKind(p.events, "click") &&
    forall k :: 0 <= k < |p.events| ==> p.events[k].page.None?
  }

  /** No two neighbouring events of the log are equal. */
  predicate NoRepeats(log: seq<RecordedEvent>)
  {
    forall k :: 0 < k < |log| ==> log[k - 1] != log[k]
  }

  /** The session log is stamped with the tracker's one path, and `lastEvent` is
      set exactly when the log is non-empty, as the unstamped copy of its last event. */
  predicate LogOk(st: LegacyState)
  {
    var log := st.session.systemEvents;
    (forall k :: 0 <= k < |log| ==> log[k].page == Some(st.pageUrl)) &&
    (st.lastEvent.None? <==> log == []) &&
    (st.lastEvent.Some? ==> st.lastEvent.value.page.None? && log[|log| - 1] == Stamp(st.lastEvent.value, st.pageUrl))
  }

  /** What the tracker keeps when it starts on an empty session, as the tracker
      as a new `Events` object has: every record counts its clicks, the click counters add
      up to the clicks of the log, the log follows `lastEvent` and never holds
      the same event twice in a row. */
  predicate Tidy(st: LegacyState)
  {
    var pages, log := st.session.pages, st.session.systemEvents;
    (forall i :: 0 <= i < |pages| ==> PageOk(pages[i])) &&
    SumClicks(pages) == CountKind(log, "click") &&
    LogOk(st) && NoRepeats(log)
  }

  lemma InitialInv(userInfo: UserInfo, session: Session, path: string, now: int)
    ensures Inv(Initial(userInfo, session, path, now))
  {
  }

  lemma InitialTidy(userInfo: UserInfo, session: Session, path: string, now: int)
    requires session.pages == [] && session.systemEvents == []
    ensures Tidy(Initial(userInfo, session, path, now))
    ensures Initial(userInfo, session, path, now).session.pages == [ZeroPage(path)]
  {
    var r := Initial(userInfo, session, path, now);
    assert r.session.pages == [ZeroPage(path)];
    assert r.session.pages[..0] == [];
  }

  lemma RecordEventKeepsInv(st: LegacyState, kind: string, data: EventData, now: int, relNow: int)
    requires Inv(st)
    ensures Inv(RecordEvent(st, kind, data, now, relNow))
  {
    RecordEventEffect(st, kind, data, now, relNow);
  }

  /** Appending an event to a record keeps it counting its clicks. */
  lemma AppendKeepsPageOk(p: Page, e: RecordedEvent)
    requires PageOk(p) && e.page.None?
    ensures PageOk(p.(events := p.events + [e], totalClicks := if e.kind == "click" then p.totalClicks + 1 else p.totalClicks))
  {
    CountKindAppend(p.events, e, "click");
  }

  lemma RecordEventKeepsTidy(st: LegacyState, kind: string, data: EventData, now: int, relNow: int)
    requires HasCurrentPage(st) && Tidy(st)
    ensures Tidy(RecordEvent(st, kind, data, now, relNow))
  {
    var e := NewEvent(st, kind, data, now, relNow);
    if st.lastEvent != Some(e) {
      var i := CurrentIndex(st);
      var pages, log := st.session.pages, st.session.systemEvents;
      var r := RecordEvent(st, kind, data, now, relNow);
      var p := pages[i];
      var p' := p.(events := p.events + [e], totalClicks := if kind == "click" then p.totalClicks + 1 else p.totalClicks);
      assert r.session.pages == pages[i := p'];
      assert r.session.systemEvents == log + [Stamp(e, st.pageUrl)];
      AppendKeepsPageOk(p, e);
      SumClicksReplace(pages, i, p');
      CountKindAppend(log, Stamp(e, st.pageUrl), "click");
      if log != [] {
        StampInjective(st.lastEvent.value, e, st.pageUrl);
      }
    }
  }

  // ---------------------------------------------------------------------------
  // The listeners

  /** The scroll handler on the integer percentage: raise the mark when the
      percentage is higher, then write the mark to the current record always. */
  function Scroll(st: LegacyState, percent: int): (r: LegacyState)
    requires HasCurrentPage(st)
    ensures HasCurrentPage(r)
  {
    var m := if percent > st.maxScroll then percent else st.maxScroll;
    var i := CurrentIndex(st);
    WithPage(st.(maxScroll := m), i, st.session.pages[i].(percentageScroll := m))
  }

  /** The mark becomes the larger of itself and the percentage, so it never
      decreases; the current record's percentage becomes the mark even when the
      percentage is lower; nothing else changes. */
  lemma ScrollEffect(st: LegacyState, percent: int)
    requires HasCurrentPage(st)
    ensures var r, i := Scroll(st, percent), CurrentIndex(st);
      r.maxScroll >= st.maxScroll && r.maxScroll >= percent &&
      (r.maxScroll == st.maxScroll || r.maxScroll == percent) &&
      r.session.pages == st.session.pages[i := st.session.pages[i].(percentageScroll := r.maxScroll)] &&
      r.(maxScroll := st.maxScroll, session := r.session.(pages := st.session.pages)) == st
  {
  }

  lemma ScrollKeepsInv(st: LegacyState, percent: int)
    requires Inv(st)
    ensures Inv(Scroll(st, percent))
  {
  }

  lemma ScrollKeepsTidy(st: LegacyState, percent: int)
    requires HasCurrentPage(st) && Tidy(st)
    ensures Tidy(Scroll(st, percent))
  {
    var i := CurrentIndex(st);
    var pages := st.session.pages;
    var r := Scroll(st, percent);
    SumClicksReplace(pages, i, r.session.pages[i]);
    assert forall j :: 0 <= j < |pages| ==> r.session.pages[j].events == pages[j].events && r.session.pages[j].totalClicks == pages[j].totalClicks;
  }

  function Click(st: LegacyState, t: SessionModel.ClickTarget, button: int, x: int, y: int,
                 now: int, relNow: int): LegacyState
    requires HasCurrentPage(st)
  {
    if SessionModel.TracksClick(t) then RecordEvent(st, "click", SessionModel.ClickData(button, x, y, t), now, relNow) else st
  }

  /** A tracked click that does not repeat the last event adds one click to the
      log and one to the current record; any other click changes nothing. */
  lemma ClickCounted(st: LegacyState, t: SessionModel.ClickTarget, button: int, x: int, y: int, now: int, relNow: int)
    requires HasCurrentPage(st)
    ensures var r, i := Click(st, t, button, x, y, now, relNow), CurrentIndex(st);
      var counted := SessionModel.TracksClick(t) &&
                     st.lastEvent != Some(NewEvent(st, "click", SessionModel.ClickData(button, x, y, t), now, relNow));
      (!counted ==> r == st) &&
      CountKind(r.session.systemEvents, "click") == CountKind(st.session.systemEvents, "click") + (if counted then 1 else 0) &&
      r.session.pages[i].totalClicks == st.session.pages[i].totalClicks + (if counted then 1 else 0)
  {
    if SessionModel.TracksClick(t) {
      var e := NewEvent(st, "click", SessionModel.ClickData(button, x, y, t), now, relNow);
      RecordEventEffect(st, "click", SessionModel.ClickData(button, x, y, t), now, relNow);
      CountKindAppend(st.session.systemEvents, Stamp(e, st.pageUrl), "click");
    }
  }

  /** The debounced input handler once its timer fires. */
  function Input(st: LegacyState, t: SessionModel.InputTarget, now: int, relNow: int): LegacyState
    requires HasCurrentPage(st)
  {
    if SessionModel.TracksInput(t) then RecordEvent(st, "input", SessionModel.InputData(t), now, relNow) else st
  }

  /** A recorded input adds one input event to the log unless it repeats the last
      event, and never counts as a click; an untracked one changes nothing. */
  lemma InputCounted(st: LegacyState, t: SessionModel.InputTarget, now: int, relNow: int)
    requires HasCurrentPage(st)
    ensures var r, i := Input(st, t, now, relNow), CurrentIndex(st);
      var counted := SessionModel.TracksInput(t) &&
                     st.lastEvent != Some(NewEvent(st, "input", SessionModel.InputData(t), now, relNow));
      (!counted ==> r == st) &&
      CountKind(r.session.systemEvents, "input") == CountKind(st.session.systemEvents, "input") + (if counted then 1 else 0) &&
      CountKind(r.session.systemEvents, "click") == CountKind(st.session.systemEvents, "click") &&
      r.session.pages[i].totalClicks == st.session.pages[i].totalClicks
  {
    if SessionModel.TracksInput(t) {
      var e := NewEvent(st, "input", SessionModel.InputData(t), now, relNow);
      RecordEventEffect(st, "input", SessionModel.InputData(t), now, relNow);
      CountKindAppend(st.session.systemEvents, Stamp(e, st.pageUrl), "input");
      CountKindAppend(st.session.systemEvents, Stamp(e, st.pageUrl), "click");
    }
  }

  // ---------------------------------------------------------------------------
  // endSession

  /** The payload `endSession` serialises. */
  datatype LegacyPayload = LegacyPayload(
    userId: Option<string>,
    userInfo: UserInfo,
    businessId: int,
    trackerEvents: seq<RecordedEvent>,
    sessionRecord: seq<RRWebEvent>,
    durationMs: int)

  datatype LegacyEnding = LegacyEnding(state: LegacyState, payload: LegacyPayload)

  /** The state updates before `session_end` is offered: the current record's
      duration is the time since the start, and the exit URL is the tracker's path. */
  function Ending0(st: LegacyState, now: int): (r: LegacyState)
    requires HasCurrentPage(st)
    ensures HasCurrentPage(r)
  {
    var i := CurrentIndex(st);
    var s := WithPage(st, i, st.session.pages[i].(duration := now - st.startTime));
    s.(session := s.session.(exitUrl := st.pageUrl))
  }

  /** `endSession`: the clock is read for the duration and twice more by the
      `session_end` event, which goes through the ordinary dedup on `lastEvent`. */
  function EndSession(st: LegacyState, userId: Option<string>, rrwebEvents: seq<RRWebEvent>,
                      now: int, recordNow: int, relNow: int): LegacyEnding
    requires HasCurrentPage(st)
  {
    var duration := now - st.startTime;
    var r := RecordEvent(Ending0(st, now), "session_end", SessionModel.SessionEndData(duration, st.maxScroll), recordNow, relNow);
    LegacyEnding(r, LegacyPayload(userId, r.userInfo, 1, r.session.systemEvents, rrwebEvents, duration))
  }

  /** `endSession` is `Ending0` followed by `recordEvent`. */
  lemma EndSessionSteps(st: LegacyState, userId: Option<string>, rrwebEvents: seq<RRWebEvent>,
                        now: int, recordNow: int, relNow: int)
    requires HasCurrentPage(st)
    ensures EndSession(st, userId, rrwebEvents, now, recordNow, relNow).state ==
            RecordEvent(Ending0(st, now), "session_end", SessionModel.SessionEndData(now - st.startTime, st.maxScroll), recordNow, relNow)
  {
  }

  /** The end event `endSession` offers to `recordEvent`. */
  function EndEvent(st: LegacyState, now: int, recordNow: int, relNow: int): RecordedEvent
  {
    NewEvent(st, "session_end", SessionModel.SessionEndData(now - st.startTime, st.maxScroll), recordNow, relNow)
  }

  /** After `endSession` the current record's duration is the time since the
      start, the exit URL is the tracker's path and the scroll mark is kept. The
      end event is logged unless it equals the last event (the tracker never
      clears `lastEvent`), and the payload carries the final log, the replay
      events, business id 1 and the same duration. */
  lemma EndSessionEffect(st: LegacyState, userId: Option<string>, rrwebEvents: seq<RRWebEvent>,
                         now: int, recordNow: int, relNow: int)
    requires HasCurrentPage(st)
    ensures var res, i := EndSession(st, userId, rrwebEvents, now, recordNow, relNow), CurrentIndex(st);
      var r, e := res.state, EndEvent(st, now, recordNow, relNow);
      r.pageUrl == st.pageUrl && r.startTime == st.startTime && r.maxScroll == st.maxScroll &&
      r.lastEvent == Some(e) && r.session.exitUrl == st.pageUrl && r.session.entryUrl == st.session.entryUrl &&
      SamePaths(r.session.pages, st.session.pages) &&
      r.session.pages[i].duration == now - st.startTime &&
      r.session.systemEvents == (if st.lastEvent == Some(e) then st.session.systemEvents
                                 else st.session.systemEvents + [Stamp(e, st.pageUrl)]) &&
      res.payload == LegacyPayload(userId, st.userInfo, 1, r.session.systemEvents, rrwebEvents, now - st.startTime)
  {
    EndSessionSteps(st, userId, rrwebEvents, now, recordNow, relNow);
    var e0 := Ending0(st, now);
    assert CurrentIndex(e0) == CurrentIndex(st) by {
      FindPageSamePaths(e0.session.pages, st.session.pages, st.pageUrl);
    }
    RecordEventEffect(e0, "session_end", SessionModel.SessionEndData(now - st.startTime, st.maxScroll), recordNow, relNow);
  }

  /** An end event equal to the last one is not logged again. */
  lemma EndRepeatSkipped(st: LegacyState, userId: Option<string>, rrwebEvents: seq<RRWebEvent>,
                         now: int, recordNow: int, relNow: int)
    requires HasCurrentPage(st) && st.lastEvent == Some(EndEvent(st, now, recordNow, relNow))
    ensures EndSession(st, userId, rrwebEvents, now, recordNow, relNow).state.session.systemEvents == st.session.systemEvents
  {
    EndSessionEffect(st, userId, rrwebEvents, now, recordNow, relNow);
  }

  /** Two `endSession` calls whose clock readings coincide log only one end event. */
  lemma EndTwiceLogsOnce(st: LegacyState, userId: Option<string>, rrwebEvents: seq<RRWebEvent>,
                         now: int, recordNow: int, relNow: int)
    requires HasCurrentPage(st)
    ensures var once := EndSession(st, userId, rrwebEvents, now, recordNow, relNow).state;
      EndSession(once, userId, rrwebEvents, now, recordNow, relNow).state.session.systemEvents == once.session.systemEvents
  {
    var once := EndSession(st, userId, rrwebEvents, now, recordNow, relNow).state;
    EndSessionEffect(st, userId, rrwebEvents, now, recordNow, relNow);
    assert once.lastEvent == Some(EndEvent(once, now, recordNow, relNow));
    EndRepeatSkipped(once, userId, rrwebEvents, now, recordNow, relNow);
  }

  lemma EndSessionKeepsInv(st: LegacyState, userId: Option<string>, rrwebEvents: seq<RRWebEvent>,
                           now: int, recordNow: int, relNow: int)
    requires Inv(st)
    ensures Inv(EndSession(st, userId, rrwebEvents, now, recordNow, relNow).state)
  {
    EndSessionEffect(st, userId, rrwebEvents, now, recordNow, relNow);
  }

  lemma Ending0KeepsInv(st: LegacyState, now: int)
    requires Inv(st)
    ensures Inv(Ending0(st, now))
  {
  }

  lemma Ending0KeepsTidy(st: LegacyState, now: int)
    requires HasCurrentPage(st) && Tidy(st)
    ensures Tidy(Ending0(st, now))
  {
    var i := CurrentIndex(st);
    var pages := st.session.pages;
    var r := Ending0(st, now);
    SumClicksReplace(pages, i, r.session.pages[i]);
    assert forall j :: 0 <= j < |pages| ==> r.session.pages[j].events == pages[j].events && r.session.pages[j].totalClicks == pages[j].totalClicks;
  }

  lemma EndSessionKeepsTidy(st: LegacyState, userId: Option<string>, rrwebEvents: seq<RRWebEvent>,
                            now: int, recordNow: int, relNow: int)
    requires HasCurrentPage(st) && Tidy(st)
    ensures Tidy(EndSession(st, userId, rrwebEvents, now, recordNow, relNow).state)
  {
    EndSessionSteps(st, userId, rrwebEvents, now, recordNow, relNow);
    Ending0KeepsTidy(st, now);
    RecordEventKeepsTidy(Ending0(st, now), "session_end", SessionModel.SessionEndData(now - st.startTime, st.maxScroll), recordNow, relNow);
  }
}
