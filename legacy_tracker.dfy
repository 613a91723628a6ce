/** The class `SystemTracker` of src/SystemTracker.ts: the older tracker, which
    writes into an `Events` object it is given. Each handler is a method whose
    new state is the matching step of `LegacyModel` applied to the old state. */
module LegacyTracker {

  import opened Interfaces
  import opened Pages
  import opened LegacyModel
  import SessionModel

  class SystemTracker {
    const events: Events
    /** `window.location.pathname` when the tracker was created; never reassigned. */
    const pageUrl: string
    var startTime: int
    var maxScroll: int
    var lastEvent: Option<RecordedEvent>

    /** The tracker as a value. */
    function State(): LegacyState
      reads this, events
    {
      LegacyState(pageUrl, startTime, maxScroll, lastEvent, events.userInfo, events.session)
    }

    predicate Valid()
      reads this, events
    {
      Inv(State())
    }

    /** The constructor on the shared `Events` object; `now` is its clock reading. */
    constructor (events: Events, pathname: string, now: int)
      modifies events
      ensures this.events == events
      ensures State() == Initial(old(events.userInfo), old(events.session), pathname, now)
      ensures Valid()
      ensures unchanged(events`leadId, events`errors, events`createdAt)
    {
      this.events := events;
      pageUrl := pathname;
      startTime := now;
      maxScroll := 0;
      lastEvent := None;
      new;
      InitPage();
    }

    /** `initPage`: add a zeroed record for the tracker's path unless one exists. */
    method InitPage()
      modifies events
      ensures events.session == old(events.session).(pages := Pages.InitPage(old(events.session.pages), pageUrl))
      ensures unchanged(events`errors, events`userInfo, events`leadId, events`createdAt)
    {
      if FindPage(events.session.pages, pageUrl).None? {
        events.session := events.session.(pages := events.session.pages + [ZeroPage(pageUrl)]);
      }
    }

    /** `recordEvent`: `now` is the reading for `timestamp`, `relNow` the one for
        `relativeTime`. */
    method RecordEvent(kind: string, data: EventData, now: int, relNow: int)
      requires Valid()
      modifies this, events
      ensures Valid() && State() == LegacyModel.RecordEvent(old(State()), kind, data, now, relNow)
      ensures unchanged(events`leadId, events`createdAt, events`errors)
    {
      RecordEventKeepsInv(State(), kind, data, now, relNow);
      var event := RecordedEvent(kind, Fields(data), now, relNow - startTime, None);
      if lastEvent == Some(event) {
        return;
      }
      lastEvent := Some(event);
      var i := FindPage(events.session.pages, pageUrl).value;
      var page := events.session.pages[i];
      page := page.(events := page.events + [event]);
      if kind == "click" {
        page := page.(totalClicks := page.totalClicks + 1);
      }
      events.session := events.session.(pages := events.session.pages[i := page],
                                         systemEvents := events.session.systemEvents + [event.(page := Some(pageUrl))]);
    }

    /** The click listener. */
    method Click(target: SessionModel.ClickTarget, button: int, x: int, y: int, now: int, relNow: int)
      requires Valid()
      modifies this, events
      ensures Valid() && State() == LegacyModel.Click(old(State()), target, button, x, y, now, relNow)
      ensures unchanged(events`leadId, events`createdAt, events`errors)
    {
      if SessionModel.TracksClick(target) {
        RecordEvent("click", SessionModel.ClickData(button, x, y, target), now, relNow);
      }
    }

    /** The debounced input handler, once its timer fires. */
    method Input(target: SessionModel.InputTarget, now: int, relNow: int)
      requires Valid()
      modifies this, events
      ensures Valid() && State() == LegacyModel.Input(old(State()), target, now, relNow)
      ensures unchanged(events`leadId, events`createdAt, events`errors)
    {
      if SessionModel.TracksInput(target) {
        RecordEvent("input", SessionModel.InputData(target), now, relNow);
      }
    }

    /** The scroll listener on the integer percentage. */
    method Scroll(percent: int)
      requires Valid()
      modifies this, events
      ensures Valid() && State() == LegacyModel.Scroll(old(State()), percent)
      ensures unchanged(events`leadId, events`createdAt, events`errors)
    {
      ScrollKeepsInv(State(), percent);
      if percent > maxScroll {
        maxScroll := percent;
      }
      var i := FindPage(events.session.pages, pageUrl).value;
      events.session := events.session.(pages := events.session.pages[i := events.session.pages[i].(percentageScroll := maxScroll)]);
    }

    /** `endSession`: `now` is the reading for the duration, `recordNow` and
        `relNow` those of `recordEvent`; returns the payload that would be sent. */
    method EndSession(userId: Option<string>, rrwebEvents: seq<RRWebEvent>, now: int, recordNow: int, relNow: int)
      returns (payload: LegacyPayload)
      requires Valid()
      modifies this, events
      ensures Valid()
      ensures State() == LegacyModel.EndSession(old(State()), userId, rrwebEvents, now, recordNow, relNow).state
      ensures payload == LegacyModel.EndSession(old(State()), userId, rrwebEvents, now, recordNow, relNow).payload
      ensures unchanged(events`leadId, events`createdAt, events`errors)
    {
      ghost var st := State();
      var duration := now - startTime;
      Close(duration);
      var data := SessionModel.SessionEndData(duration, maxScroll);
      RecordEvent("session_end", data, recordNow, relNow);
      EndSessionSteps(st, userId, rrwebEvents, now, recordNow, relNow);
      payload := LegacyPayload(userId, events.userInfo, 1, events.session.systemEvents, rrwebEvents, duration);
    }

    /** The part of `endSession` before `session_end` is recorded. */
    method Close(duration: int)
      requires Valid()
      modifies events
      ensures Valid() && State() == Ending0(old(State()), startTime + duration)
      ensures unchanged(events`leadId, events`createdAt, events`errors)
    {
      Ending0KeepsInv(State(), startTime + duration);
      var found := FindPage(events.session.pages, pageUrl);
      if found.Some? {
        var i := found.value;
        events.session := events.session.(pages := events.session.pages[i := events.session.pages[i].(duration := duration)]);
      }
      events.session := events.session.(exitUrl := pageUrl);
    }
  }
}
