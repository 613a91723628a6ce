/** The class `TrackerManager` of src/session/TrackerManager.ts: it reads the
    configuration, does nothing on an excluded path, and otherwise creates a
    session object, the replay recorder and a tracker, and ends the session
    through the tracker.

    Its import `./SystemTracker` names src/session/SystemTracker.ts, whose
    constructor takes options, so the session object the manager builds is
    passed where options are expected: the tracker creates a session object of
    its own and never writes the manager's. `TrackerManager` models the code as
    written; `SharedTrackerManager` the evidently intended version, which hands
    its session object to the tracker of src/SystemTracker.ts. */
module Manager {

  import opened Interfaces
  import Text
  import PathExclusion
  import SessionModel
  import SessionTracker
  import LegacyModel
  import LegacyTracker

  /** The parts of `TrackerConfig` the manager reads. */
  datatype TrackerConfig = TrackerConfig(userId: Option<string>, excludePaths: Option<seq<string>>)

  /** `config.userId || 'anonymous'`: an absent or empty id becomes `anonymous`. */
  function UserIdOf(config: TrackerConfig): (id: string)
    ensures id != ""
    ensures config.userId.Some? && config.userId.value != "" ==> id == config.userId.value
    ensures config.userId.None? || config.userId.value == "" ==> id == "anonymous"
  {
    if config.userId.Some? && config.userId.value != "" then config.userId.value else "anonymous"
  }

  /** `config.excludePaths || []`. */
  function ExcludePathsOf(config: TrackerConfig): (patterns: seq<string>)
    ensures config.excludePaths.Some? ==> patterns == config.excludePaths.value
    ensures config.excludePaths.None? ==> patterns == [] && forall path :: !PathExclusion.IsExcluded(patterns, path)
  {
    if config.excludePaths.Some? then config.excludePaths.value else []
  }

  /** The session the manager builds for `path`. */
  function ManagerSession(path: string, sessionNow: int): (s: Session)
    ensures s.entryUrl == path && s.exitUrl == path && s.pages == [] && s.systemEvents == [] && s.rrwebEvents == []
  {
    NewSession("sess_" + Text.IntToString(sessionNow), path)
  }

  /** The manager as the source is written. */
  class TrackerManager {
    const userId: string
    const excludePaths: seq<string>
    /** `events`; unset on an excluded path. */
    var events: Events?
    var systemTracker: SessionTracker.SystemTracker?
    /** Whether a replay recorder exists, and whether it is recording. */
    var recorder: bool
    var recording: bool

    /** Either nothing was created, or all three exist; the tracker keeps its
        invariant and writes a session object other than the manager's. */
    predicate Valid()
      reads this, systemTracker, if systemTracker != null then {systemTracker.events} else {}
    {
      (systemTracker == null <==> events == null) && recorder == (systemTracker != null) &&
      (systemTracker != null ==> systemTracker.Valid() && systemTracker.events != events)
    }

    /** The constructor: `leadNow`, `sessionNow` and `createdAt` are the manager's
        clock readings, the remaining ones the tracker's. */
    constructor (config: TrackerConfig, env: Environment, window: SessionTracker.Window, storedUserId: Option<string>,
                 leadNow: int, sessionNow: int, createdAt: string,
                 now: int, trackerLeadNow: int, trackerSessionNow: int, trackerCreatedAt: string)
      modifies window
      ensures userId == UserIdOf(config) && excludePaths == ExcludePathsOf(config)
      ensures Valid()
      ensures systemTracker == null <==> PathExclusion.IsExcluded(excludePaths, old(window.pathname))
      ensures systemTracker != null ==>
        fresh(events) && fresh(systemTracker) && fresh(systemTracker.events) && recording &&
        events.leadId == Some(SessionModel.LeadId(leadNow)) && events.userInfo == UserInfoOf(env, None, None) &&
        events.session == ManagerSession(old(window.pathname), sessionNow) && events.createdAt == createdAt &&
        systemTracker.State() == SessionModel.Initial(env, old(window.pathname), SessionModel.Options(None, None), storedUserId,
                                                      now, trackerLeadNow, trackerSessionNow, trackerCreatedAt)
      ensures systemTracker == null ==> !recording && window.historyPatched == old(window.historyPatched)
    {
      userId := UserIdOf(config);
      excludePaths := ExcludePathsOf(config);
      var path := window.pathname;
      if PathExclusion.IsExcluded(ExcludePathsOf(config), path) {
        events := null;
        systemTracker := null;
        recorder := false;
        recording := false;
      } else {
        var ev := new Events(Some(SessionModel.LeadId(leadNow)), UserInfoOf(env, None, None),
                             ManagerSession(path, sessionNow), [], createdAt);
        // The session object is passed as the options, which hold neither a
        // business id nor a user id.
        var tracker := new SessionTracker.SystemTracker(env, window, SessionModel.Options(None, None), storedUserId,
                                                        now, trackerLeadNow, trackerSessionNow, trackerCreatedAt);
        ghost var init := SessionModel.Initial(env, path, SessionModel.Options(None, None), storedUserId,
                                               now, trackerLeadNow, trackerSessionNow, trackerCreatedAt);
        assert tracker.State() == init && tracker.Valid() && tracker.events != ev;
        events := ev;
        recorder := true;
        recording := true;
        systemTracker := tracker;
      }
    }

    /** `endSession`: nothing without a tracker; otherwise stop the recorder, and
        end the tracker's session with the configured user id and the replay
        events of the manager's session object. */
    method EndSession(now: int, recordNow: int) returns (payload: Option<SessionModel.Payload>)
      requires Valid()
      modifies this, systemTracker, if systemTracker != null then {systemTracker.events} else {}
      ensures Valid() && systemTracker == old(systemTracker) && events == old(events)
      ensures old(systemTracker) == null ==> payload == None && recording == old(recording)
      ensures old(systemTracker) != null ==>
        !recording &&
        systemTracker.State() == SessionModel.EndState(old(systemTracker.State()), now, recordNow) &&
        payload == Some(SessionModel.EndSession(old(systemTracker.State()), Some(userId), old(events.session.rrwebEvents),
                                                now, recordNow).payload)
    {
      if systemTracker == null {
        return None;
      }
      var rrwebEvents: seq<RRWebEvent> := [];
      if recorder {
        recording := false;
        rrwebEvents := events.session.rrwebEvents;
      }
      var p := systemTracker.EndSession(Some(userId), rrwebEvents, now, recordNow);
      return Some(p);
    }

    /** `getSessionJSON`. */
    method GetSessionJSON() returns (e: Events?)
      ensures e == events
    {
      return events;
    }
  }

  /** The manager as evidently intended: the tracker of src/SystemTracker.ts
      writes into the session object the manager builds and returns. */
  class SharedTrackerManager {
    const userId: string
    const excludePaths: seq<string>
    var events: Events?
    var systemTracker: LegacyTracker.SystemTracker?
    var recorder: bool
    var recording: bool

    predicate Valid()
      reads this, events, systemTracker
    {
      (systemTracker == null <==> events == null) && recorder == (systemTracker != null) &&
      (systemTracker != null ==> systemTracker.events == events && systemTracker.Valid())
    }

    /** `leadNow`, `sessionNow` and `createdAt` are the manager's clock readings,
        `now` the tracker's. */
    constructor (config: TrackerConfig, env: Environment, path: string,
                 leadNow: int, sessionNow: int, createdAt: string, now: int)
      ensures userId == UserIdOf(config) && excludePaths == ExcludePathsOf(config)
      ensures Valid()
      ensures systemTracker == null <==> PathExclusion.IsExcluded(excludePaths, path)
      ensures systemTracker != null ==>
        fresh(events) && fresh(systemTracker) && recording &&
        events.leadId == Some(SessionModel.LeadId(leadNow)) && events.createdAt == createdAt &&
        systemTracker.State() == LegacyModel.Initial(UserInfoOf(env, None, None), ManagerSession(path, sessionNow), path, now) &&
        LegacyModel.Tidy(systemTracker.State())
      ensures systemTracker == null ==> !recording
    {
      userId := UserIdOf(config);
      excludePaths := ExcludePathsOf(config);
      if PathExclusion.IsExcluded(ExcludePathsOf(config), path) {
        events := null;
        systemTracker := null;
        recorder := false;
        recording := false;
      } else {
        var ev := new Events(Some(SessionModel.LeadId(leadNow)), UserInfoOf(env, None, None),
                             ManagerSession(path, sessionNow), [], createdAt);
        var tracker := new LegacyTracker.SystemTracker(ev, path, now);
        ghost var init := LegacyModel.Initial(UserInfoOf(env, None, None), ManagerSession(path, sessionNow), path, now);
        assert tracker.State() == init && tracker.Valid();
        LegacyModel.InitialTidy(UserInfoOf(env, None, None), ManagerSession(path, sessionNow), path, now);
        events := ev;
        recorder := true;
        recording := true;
        systemTracker := tracker;
      }
    }

    /** `endSession` with the older tracker's clock readings. */
    method EndSession(now: int, recordNow: int, relNow: int) returns (payload: Option<LegacyModel.LegacyPayload>)
      requires Valid()
      modifies this, events, systemTracker
      ensures Valid() && systemTracker == old(systemTracker) && events == old(events)
      ensures old(systemTracker) == null ==> payload == None && recording == old(recording)
      ensures old(systemTracker) != null ==>
        !recording &&
        var ended := LegacyModel.EndSession(old(systemTracker.State()), Some(userId), old(events.session.rrwebEvents),
                                            now, recordNow, relNow);
        systemTracker.State() == ended.state && payload == Some(ended.payload)
    {
      if systemTracker == null {
        return None;
      }
      var rrwebEvents: seq<RRWebEvent> := [];
      if recorder {
        recording := false;
        rrwebEvents := events.session.rrwebEvents;
      }
      var p := systemTracker.EndSession(Some(userId), rrwebEvents, now, recordNow, relNow);
      return Some(p);
    }

    method GetSessionJSON() returns (e: Events?)
      ensures e == events
    {
      return events;
    }
  }

  /** A button click on a tracker that has logged nothing is logged. */
  lemma FirstClickLogged(st: SessionModel.TrackerState, button: SessionModel.ClickTarget)
    requires SessionModel.HasCurrentPage(st) && st.lastEvent == None && st.session.systemEvents == []
    requires button.tagName == "BUTTON"
    ensures |SessionModel.Click(st, button, 0, 1, 1, 5).session.systemEvents| == 1
  {
    SessionModel.RecordEventEffect(st, "click", Fields(SessionModel.ClickData(0, 1, 1, button)), 5);
  }

  /** As written: a tracked click on a fresh manager reaches the tracker's log,
      while the session object the manager returns stays without events. */
  method UnsharedSessionExample(env: Environment, storedUserId: Option<string>)
    returns (exposed: seq<RecordedEvent>, logged: seq<RecordedEvent>)
    ensures exposed == [] && |logged| == 1
  {
    var window := new SessionTracker.Window("/home");
    var m := new TrackerManager(TrackerConfig(None, None), env, window, storedUserId, 0, 0, "", 0, 0, 0, "");
    var tracker := m.systemTracker;
    var button := SessionModel.ClickTarget("BUTTON", None, "Go", None);
    var e := m.GetSessionJSON();
    ghost var st := tracker.State();
    assert st.lastEvent == None && st.session.systemEvents == [] && e.session.systemEvents == [];
    FirstClickLogged(st, button);
    tracker.Click(button, 0, 1, 1, 5);
    exposed := e.session.systemEvents;
    logged := tracker.events.session.systemEvents;
  }

  /** As intended: the same click is in the session object the manager returns. */
  method SharedSessionExample(env: Environment)
    returns (exposed: seq<RecordedEvent>, logged: seq<RecordedEvent>)
    ensures exposed == logged && |logged| == 1
  {
    var m := new SharedTrackerManager(TrackerConfig(None, None), env, "/home", 0, 0, "", 0);
    var tracker := m.systemTracker;
    var button := SessionModel.ClickTarget("BUTTON", None, "Go", None);
    LegacyModel.ClickCounted(tracker.State(), button, 0, 1, 1, 5, 5);
    tracker.Click(button, 0, 1, 1, 5, 5);
    var e := m.GetSessionJSON();
    exposed := e.session.systemEvents;
    logged := tracker.events.session.systemEvents;
  }
}
