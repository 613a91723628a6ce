/** The class `SystemTracker` of src/session/SystemTracker.ts: fields updated in
    place, and the `Events` object it owns. Each handler is a method whose new
    state is the matching step of `SessionModel` applied to the old state, and
    each keeps the invariant `SessionModel.Inv`. */
module SessionTracker {

  import opened Interfaces
  import opened Pages
  import opened SessionModel
  import ErrorHash
  import BotDetector

  /** The part of `window` the tracker writes: the `__ptHistoryPatched` flag. */
  class Window {
    var historyPatched: bool
    var pathname: string

    constructor (pathname: string)
      ensures !historyPatched && this.pathname == pathname
    {
      historyPatched := false;
      this.pathname := pathname;
    }
  }

  class SystemTracker {
    const events: Events
    var pageUrl: string
    var sessionStartTime: int
    var pageStartTime: int
    var startTime: int
    var maxScroll: int
    var lastEvent: Option<RecordedEvent>
    var errors: seq<TrackedError>
    var fingerprint: Option<string>
    var botInfo: Option<BotDetector.BotDetectionResult>
    var options: Options
    /** Whether `this.botDetector` has been assigned (by `initBotDetection`). */
    var botDetector: bool
    /** Whether this tracker installed the history patch and the `popstate` listener. */
    var listening: bool

    /** The tracker as a value. */
    function State(): TrackerState
      reads this, events
    {
      TrackerState(pageUrl, sessionStartTime, pageStartTime, startTime, maxScroll, lastEvent, errors,
                   fingerprint, botInfo, botDetector, options, events.userInfo, events.session,
                   events.leadId, events.createdAt)
    }

    /** The invariant of the model, and `events.errors` holding the same errors as `errors`. */
    predicate Valid()
      reads this, events
    {
      Inv(State()) && events.errors == errors
    }

    /** The constructor with the stored user id and the clock readings as parameters.
        `createdAt` is `new Date().toISOString()`. The navigation listener is
        installed only when the window has not been patched before. */
    constructor (env: Environment, window: Window, opts: Options, storedUserId: Option<string>,
                 now: int, leadNow: int, sessionNow: int, createdAt: string)
      modifies window
      ensures State() == Initial(env, old(window.pathname), opts, storedUserId, now, leadNow, sessionNow, createdAt)
      ensures Valid() && fresh(events)
      ensures events.leadId == Some(LeadId(leadNow)) && events.createdAt == createdAt
      ensures window.historyPatched && listening == !old(window.historyPatched)
      ensures window.pathname == old(window.pathname)
    {
      var path := window.pathname;
      var init := Initial(env, path, opts, storedUserId, now, leadNow, sessionNow, createdAt);
      pageUrl := path;
      options := init.options;
      sessionStartTime := now;
      pageStartTime := now;
      startTime := now;
      maxScroll := 0;
      lastEvent := None;
      errors := [];
      fingerprint := None;
      botInfo := None;
      botDetector := false;
      events := new Events(Some(LeadId(leadNow)), UserInfoOf(env, None, None),
                           NewSession("sess_" + Text.IntToString(sessionNow), path), [], createdAt);
      new;
      InitPage();
      listening := InitNavigationListener(window);
      FreshInv(State(), path);
    }

    /** `initNavigationListener`: patch the history only once per window. */
    method InitNavigationListener(window: Window) returns (installed: bool)
      modifies window
      ensures window.historyPatched && installed == !old(window.historyPatched)
      ensures window.pathname == old(window.pathname)
    {
      if window.historyPatched {
        return false;
      }
      window.historyPatched := true;
      return true;
    }

    /** `initPage`: add a zeroed record for the current path unless one exists. */
    method InitPage()
      modifies events
      ensures events.session == old(events.session).(pages := Pages.InitPage(old(events.session.pages), pageUrl))
      ensures unchanged(events`errors, events`userInfo, events`leadId, events`createdAt)
    {
      if FindPage(events.session.pages, pageUrl).None? {
        events.session := events.session.(pages := events.session.pages + [ZeroPage(pageUrl)]);
      }
    }

    /** `recordEvent` on any state with a current record. */
    method Record(kind: string, data: EventBody, now: int)
      requires HasCurrentPage(State())
      modifies this, events
      ensures unchanged(events`leadId, events`createdAt)
      ensures State() == SessionModel.RecordEvent(old(State()), kind, data, now)
      ensures unchanged(this`listening, this`errors) && events.errors == old(events.errors)
    {
      var event := RecordedEvent(kind, data, now, now - sessionStartTime, Some(pageUrl));
      if lastEvent == Some(event) {
        return;
      }
      lastEvent := Some(event);
      var i := FindPage(events.session.pages, pageUrl).value;
      var page := events.session.pages[i];
      page := page.(events := page.events + [event]);
      if kind == "click" {
        page := page.(totalClicks := page.totalClicks + 1);
      }
      events.session := events.session.(pages := events.session.pages[i := page],
                                         systemEvents := events.session.systemEvents + [event]);
    }

    /** `recordEvent`, the public entry point. */
    method RecordEvent(kind: string, data: EventData, now: int)
      requires Valid()
      modifies this, events
      ensures unchanged(events`leadId, events`createdAt)
      ensures Valid() && State() == SessionModel.RecordEvent(old(State()), kind, Fields(data), now)
      ensures unchanged(this`listening)
    {
      RecordEventKeepsInv(State(), kind, Fields(data), now);
      Record(kind, Fields(data), now);
    }

    /** The navigation handler: `newUrl` is `window.location.pathname` after a
        `pushState`, `replaceState` or `popstate`. */
    method HandleNavigation(newUrl: string, now: int, exitNow: int, viewNow: int)
      requires Valid()
      modifies this, events
      ensures unchanged(events`leadId, events`createdAt)
      ensures Valid() && State() == SessionModel.HandleNavigation(old(State()), newUrl, now, exitNow, viewNow)
      ensures unchanged(this`listening)
    {
      if newUrl == pageUrl {
        return;
      }
      HandlePageChange(newUrl, now, exitNow, viewNow);
    }

    /** `handlePageChange`. */
    method HandlePageChange(newPage: string, now: int, exitNow: int, viewNow: int)
      requires Valid()
      modifies this, events
      ensures unchanged(events`leadId, events`createdAt)
      ensures Valid() && State() == PageChange(old(State()), newPage, now, exitNow, viewNow)
      ensures unchanged(this`listening)
    {
      ghost var st := State();
      ClosePageKeepsInv(st, now, exitNow);
      ClosePage(now, exitNow);
      ghost var c := State();
      OpenPageKeepsInv(c, newPage, now, viewNow);
      OpenPage(newPage, now, viewNow);
    }

    /** The first half of `handlePageChange`: close the current record, if there
        is one, and record `page_exit`. */
    method ClosePage(now: int, exitNow: int)
      modifies this, events
      ensures unchanged(events`leadId, events`createdAt)
      ensures State() == SessionModel.ClosePage(old(State()), now, exitNow)
      ensures unchanged(this`listening, this`errors) && events.errors == old(events.errors)
    {
      ghost var st := State();
      var found := FindPage(events.session.pages, pageUrl);
      if found.Some? {
        var i := found.value;
        var duration := now - pageStartTime;
        events.session := events.session.(pages := events.session.pages[i := events.session.pages[i].(duration := duration)]);
        assert State() == WithDuration(st, duration);
        Record("page_exit", PageExitData(pageUrl, duration, maxScroll), exitNow);
      }
    }

    /** The second half of `handlePageChange`: move to `newPage` and record `page_view`. */
    method OpenPage(newPage: string, now: int, viewNow: int)
      modifies this, events
      ensures unchanged(events`leadId, events`createdAt)
      ensures State() == SessionModel.OpenPage(old(State()), newPage, now, viewNow)
      ensures unchanged(this`listening, this`errors) && events.errors == old(events.errors)
    {
      ghost var st := State();
      var oldPage := pageUrl;
      MoveTo(newPage, now);
      Record("page_view", PageViewData(newPage, oldPage), viewNow);
      OpenPageUnfold(st, newPage, now, viewNow);
    }

    /** Reset the scroll mark and the last event, switch to `newPage`, make sure it
        has a record and make it the exit URL. */
    method MoveTo(newPage: string, now: int)
      modifies this, events
      ensures unchanged(events`leadId, events`createdAt)
      ensures State() == Moved(old(State()), newPage, now)
      ensures unchanged(this`listening, this`errors) && events.errors == old(events.errors)
    {
      ghost var session := events.session;
      maxScroll := 0;
      lastEvent := None;
      pageUrl := newPage;
      pageStartTime := now;
      startTime := now;
      InitPage();
      events.session := events.session.(exitUrl := newPage);
      assert events.session == session.(pages := Pages.InitPage(session.pages, newPage), exitUrl := newPage);
    }

    /** The scroll listener. */
    method Scroll(scrollHeight: int, percent: int)
      requires Valid()
      modifies this, events
      ensures unchanged(events`leadId, events`createdAt)
      ensures Valid() && State() == SessionModel.Scroll(old(State()), scrollHeight, percent)
      ensures unchanged(this`listening)
    {
      ScrollKeepsInv(State(), scrollHeight, percent);
      if scrollHeight <= 0 {
        return;
      }
      if percent > maxScroll {
        maxScroll := percent;
        var i := FindPage(events.session.pages, pageUrl).value;
        events.session := events.session.(pages := events.session.pages[i := events.session.pages[i].(percentageScroll := percent)]);
      }
    }

    /** The click listener. */
    method Click(target: ClickTarget, button: int, x: int, y: int, now: int)
      requires Valid()
      modifies this, events
      ensures unchanged(events`leadId, events`createdAt)
      ensures Valid() && State() == SessionModel.Click(old(State()), target, button, x, y, now)
      ensures unchanged(this`listening)
    {
      ClickKeepsInv(State(), target, button, x, y, now);
      if TracksClick(target) {
        Record("click", Fields(ClickData(button, x, y, target)), now);
      }
    }

    /** The debounced input handler, once its timer fires. */
    method Input(target: InputTarget, now: int)
      requires Valid()
      modifies this, events
      ensures unchanged(events`leadId, events`createdAt)
      ensures Valid() && State() == SessionModel.Input(old(State()), target, now)
      ensures unchanged(this`listening)
    {
      InputKeepsInv(State(), target, now);
      if TracksInput(target) {
        Record("input", Fields(InputData(target)), now);
      }
    }

    /** `trackError`: `now` is its clock reading, `recordNow` that of `recordEvent`. */
    method TrackError(err: TrackedError, kind: string, now: int, recordNow: int)
      requires Valid()
      modifies this, events
      ensures unchanged(events`leadId, events`createdAt)
      ensures Valid() && State() == SessionModel.TrackError(old(State()), err, kind, now, recordNow)
      ensures unchanged(this`listening)
    {
      ghost var st := State();
      var hash := ErrorHash.GenerateErrorHash(err);
      match FindError(errors, hash)
      case Some(k) =>
        var prior := errors[k];
        BumpKeepsErrorsOk(errors, k, now);
        errors := errors[k := prior.(count := Some(CountOrOne(prior.count) + 1), lastOccurred := now)];
        events.errors := errors;
        InvFrame(st, State());
      case None =>
        var e := err.(hash := hash, count := Some(1), lastOccurred := now);
        assert e == Stamped(err, now);
        StampedKeepsErrorsOk(errors, err, now);
        var index := |errors|;
        errors := errors + [e];
        events.errors := events.errors + [e];
        InvFrame(st, State());
        RecordEventKeepsInv(State(), kind, ErrorAt(index), recordNow);
        Record(kind, ErrorAt(index), recordNow);
    }

    /** The `error` listener. */
    method OnWindowError(message: string, filename: string, lineno: int, colno: int, stack: Option<string>,
                         now: int, lastNow: int, trackNow: int, recordNow: int)
      requires Valid()
      modifies this, events
      ensures unchanged(events`leadId, events`createdAt)
      ensures Valid()
      ensures State() == SessionModel.TrackError(old(State()), WindowError(message, filename, lineno, colno, stack, old(pageUrl), now, lastNow),
                                                 "error", trackNow, recordNow)
      ensures unchanged(this`listening)
    {
      TrackError(WindowError(message, filename, lineno, colno, stack, pageUrl, now, lastNow), "error", trackNow, recordNow);
    }

    /** The `unhandledrejection` listener. */
    method OnRejection(reason: string, stack: Option<string>, now: int, lastNow: int, trackNow: int, recordNow: int)
      requires Valid()
      modifies this, events
      ensures unchanged(events`leadId, events`createdAt)
      ensures Valid()
      ensures State() == SessionModel.TrackError(old(State()), RejectionError(reason, stack, old(pageUrl), now, lastNow),
                                                 "unhandled_rejection", trackNow, recordNow)
      ensures unchanged(this`listening)
    {
      TrackError(RejectionError(reason, stack, pageUrl, now, lastNow), "unhandled_rejection", trackNow, recordNow);
    }

    /** The `console.error` wrapper (the call to the original `console.error` is left out). */
    method OnConsoleError(args: seq<string>, now: int, lastNow: int, trackNow: int, recordNow: int)
      requires Valid()
      modifies this, events
      ensures unchanged(events`leadId, events`createdAt)
      ensures Valid()
      ensures State() == SessionModel.TrackError(old(State()), ConsoleError(args, old(pageUrl), now, lastNow),
                                                 "console_error", trackNow, recordNow)
      ensures unchanged(this`listening)
    {
      TrackError(ConsoleError(args, pageUrl, now, lastNow), "console_error", trackNow, recordNow);
    }

    /** `initFingerprint`, with what the library produced; on a throw the `catch`
        goes through the wrapped `console.error` (see `OnConsoleError`). */
    method InitFingerprint(outcome: FingerprintOutcome, now: int, lastNow: int, trackNow: int, recordNow: int)
      requires Valid()
      modifies this, events
      ensures unchanged(events`leadId, events`createdAt)
      ensures Valid() && State() == SessionModel.InitFingerprint(old(State()), outcome, now, lastNow, trackNow, recordNow)
      ensures unchanged(this`listening)
    {
      ghost var st := State();
      match outcome
      case VisitorId(id) =>
        fingerprint := Some(id);
        events.userInfo := events.userInfo.(fingerprint := Some(id));
        InvFrame(st, State());
      case FingerprintThrew(error) =>
        OnConsoleError([FINGERPRINT_ERROR, error], now, lastNow, trackNow, recordNow);
        ghost var t := State();
        fingerprint := None;
        events.userInfo := events.userInfo.(fingerprint := None);
        InvFrame(t, State());
    }

    /** `initBotDetection`: create the detector and run it on the environment's signals. */
    method InitBotDetection(signals: BotDetector.Signals)
      requires Valid()
      modifies this, events
      ensures unchanged(events`leadId, events`createdAt)
      ensures Valid() && State() == SessionModel.InitBotDetection(old(State()), signals)
      ensures unchanged(this`listening)
    {
      ghost var st := State();
      botDetector := true;
      var info := BotDetector.Detect(TrackerSignals(signals));
      botInfo := Some(info);
      events.userInfo := events.userInfo.(isBot := Some(info.isBot));
      InvFrame(st, State());
    }

    /** `isBot()`. */
    method IsBot() returns (bot: bool)
      ensures bot == SessionModel.IsBot(State())
    {
      bot := botInfo.Some? && botInfo.value.isBot;
    }

    /** `isBotAsync()`: detect only when no result is stored yet; `None` when the
        detector does not exist yet and the call throws. */
    method IsBotAsync(signals: BotDetector.Signals) returns (answer: Option<bool>)
      requires Valid()
      modifies this
      ensures Valid() && (State(), answer) == SessionModel.IsBotAsync(old(State()), signals)
      ensures unchanged(this`listening)
    {
      ghost var st := State();
      if botInfo.None? {
        if !botDetector {
          return None;
        }
        var info := BotDetector.Detect(TrackerSignals(signals));
        botInfo := Some(info);
      }
      answer := Some(botInfo.value.isBot);
      InvFrame(st, State());
    }

    /** `endSession`: returns the payload that would be sent. */
    method EndSession(userId: Option<string>, rrwebEvents: seq<RRWebEvent>, now: int, recordNow: int)
      returns (payload: Payload)
      requires Valid()
      modifies this, events
      ensures unchanged(events`leadId, events`createdAt)
      ensures Valid() && State() == EndState(old(State()), now, recordNow)
      ensures payload == SessionModel.EndSession(old(State()), userId, rrwebEvents, now, recordNow).payload
      ensures unchanged(this`listening)
    {
      ghost var st := State();
      var sessionDuration := now - sessionStartTime;
      Ending0KeepsInv(st, now);
      PrepareEnd(now);
      ghost var e0 := State();
      var data := Fields(SessionEndData(sessionDuration, maxScroll));
      assert data == Fields(SessionEndData(now - st.sessionStartTime, st.maxScroll));
      RecordEventKeepsInv(e0, "session_end", data, recordNow);
      Record("session_end", data, recordNow);
      assert State() == SessionModel.RecordEvent(e0, "session_end", data, recordNow);
      EndStateSteps(st, now, recordNow);
      assert SessionModel.RecordEvent(e0, "session_end", data, recordNow) == EndState(st, now, recordNow);
      payload := BuildPayload(userId, rrwebEvents, sessionDuration);
    }

    /** The payload of `endSession`, built from the tracker's current fields. */
    method BuildPayload(userId: Option<string>, rrwebEvents: seq<RRWebEvent>, sessionDuration: int)
      returns (payload: Payload)
      ensures payload == PayloadOf(State(), userId, rrwebEvents, sessionDuration)
    {
      var log := events.session.systemEvents;
      var totalClicks := CountKind(log, "click");
      var totalInputs := CountKind(log, "input");
      var totalPagesVisited := |NavigationUrls(log)| + 1;
      payload := Payload(errors, if userId.Some? then userId else options.userId, options.businessId,
                         events.userInfo, fingerprint, ShownLog(log, errors), rrwebEvents, sessionDuration,
                         events.session.entryUrl, pageUrl, totalClicks, totalInputs, totalPagesVisited);
    }

    /** The part of `endSession` before `session_end` is recorded: refresh the
        user info, close the current record, set the exit URL, forget the last event. */
    method PrepareEnd(now: int)
      requires HasCurrentPage(State())
      modifies this, events
      ensures unchanged(events`leadId, events`createdAt)
      ensures State() == Ending0(old(State()), now)
      ensures unchanged(this`listening, this`errors, this`maxScroll) && events.errors == old(events.errors)
    {
      ghost var st := State();
      UpdateUserInfo();
      var i := FindPage(events.session.pages, pageUrl).value;
      events.session := events.session.(pages := events.session.pages[i := events.session.pages[i].(duration := now - pageStartTime)]);
      events.session := events.session.(exitUrl := pageUrl);
      lastEvent := None;
    }

    /** `updateUserInfo`: copy the fingerprint and the bot verdict into the user info. */
    method UpdateUserInfo()
      modifies events
      ensures unchanged(events`leadId, events`createdAt)
      ensures State() == SessionModel.UpdateUserInfo(old(State()))
      ensures unchanged(events`errors)
    {
      events.userInfo := events.userInfo.(fingerprint := fingerprint, isBot := Some(botInfo.Some? && botInfo.value.isBot));
    }

    /** `getEvents`. */
    method GetEvents() returns (summary: Summary)
      requires Valid()
      ensures summary == SessionModel.GetEvents(State())
    {
      var log := events.session.systemEvents;
      var totals := Totals(CountKind(log, "click"), CountKind(log, "input"),
                           |{Str(events.session.entryUrl)} + NavigationUrls(log)|);
      summary := Summary(events.leadId, events.createdAt, events.errors, events.userInfo, totals,
                         SessionSummary(events.session, events.session.entryUrl, pageUrl, totals));
    }
  }
}
