/**
  A release, its run seen under way and its handoff, with the second at which
  each snapshot says the run began left open: the validator accepts every choice.
 */
module ContinuationExample {
  import opened Options
  import opened Json
  import opened Snapshot
  import opened ContinuationSnapshot

  const TERMS := Terms(0, "local", "/w", "b", "r", "s", "done")

  function TaskOf(status: string, started: Value, session: Value): Value {
    Object(map["status" := Str(status), "started_at" := started, "completed_at" := Null, "session_id" := session, "branch_name" := Str("b"),
               "assignee" := Str("local"), "workspace_kind" := Str("worktree"), "workspace_path" := Str("/w")])
  }

  function Root(task: Value, summary: Value, runs: seq<Value>, events: seq<Value>): Dict {
    map["task" := task, "latest_summary" := summary, "parents" := Array([]), "children" := Array([]), "comments" := Array([]),
        "events" := Array(events), "runs" := Array(runs)]
  }

  function RunOf(status: string, started: int, outcome: Value, ended: Value, summary: Value, pid: Value): Value {
    Object(map["id" := Int(7), "status" := Str(status), "outcome" := outcome, "started_at" := Int(started), "ended_at" := ended,
               "summary" := summary, "profile" := Str("local"), "worker_pid" := pid, "metadata" := Null])
  }

  function Claimed(at: int): Value {
    Object(map["kind" := Str("claimed"), "created_at" := Int(at), "run_id" := Int(7),
               "payload" := Object(map["lock" := Str("l"), "expires" := Int(at), "run_id" := Int(7)])])
  }

  function Blocked(at: int): Value {
    Object(map["kind" := Str("blocked"), "created_at" := Int(at), "run_id" := Int(7), "payload" := Object(map["reason" := Str("done")])])
  }

  const RELEASED := Root(TaskOf("ready", Null, Null), Null, [], [])

  function UnderWay(start: int): Dict {
    Root(TaskOf("running", Int(start), Str("x")), Null, [RunOf("running", start, Null, Null, Null, Int(9))], [Claimed(start)])
  }

  function HandedBack(start: int, end: int): Dict {
    Root(TaskOf("blocked", Int(start), Null), Str("done"), [RunOf("blocked", start, Str("blocked"), Int(end), Str("done"), Null)], [Claimed(start), Blocked(end)])
  }

  function Seen(start: int): Observation {
    Observation(7, Str("x"), 9, Some(Object(UnderWay(start))), Object(UnderWay(start)), Str("local"), Str("/w"), Str("b"))
  }

  // ----- What the values hold, field by field -----

  lemma TaskFields(status: string, started: Value, session: Value)
    ensures TaskOf(status, started, session).Object?
    ensures var task := TaskOf(status, started, session).members;
      && "session_id" in task && "started_at" in task
      && Get(task, "status") == Str(status) && Get(task, "started_at") == started && Get(task, "session_id") == session
      && Get(task, "completed_at") == Null && Get(task, "branch_name") == Str("b") && Get(task, "repository_identity") == Null
      && Get(task, "base_sha") == Null && Get(task, "assignee") == Str("local") && Get(task, "workspace_kind") == Str("worktree")
      && Get(task, "workspace_path") == Str("/w")
  {
  }

  lemma RootFields(task: Value, summary: Value, runs: seq<Value>, events: seq<Value>)
    requires task.Object?
    ensures var root := Root(task, summary, runs, events);
      && root.Keys == REQUIRED && IsAuthority(root) && root["task"] == task && root["latest_summary"] == summary
      && root["runs"] == Array(runs) && root["events"] == Array(events) && root["comments"] == Array([])
      && root["parents"] == Array([]) && root["children"] == Array([])
  {
  }

  lemma RunValues(status: string, started: int, outcome: Value, ended: Value, summary: Value, pid: Value)
    ensures RunOf(status, started, outcome, ended, summary, pid).Object?
    ensures var run := RunOf(status, started, outcome, ended, summary, pid).members;
      && run.Keys == RUN_FIELDS && run["id"] == Int(7) && run["status"] == Str(status) && run["outcome"] == outcome && run["started_at"] == Int(started)
      && run["ended_at"] == ended && run["summary"] == summary && run["profile"] == Str("local") && run["worker_pid"] == pid && run["metadata"] == Null
  {
  }

  lemma ClaimedValues(at: int)
    ensures Claimed(at).Object?
    ensures var event := Claimed(at).members;
      && event.Keys == EVENT_FIELDS && event["kind"] == Str("claimed") && event["created_at"] == Int(at) && event["run_id"] == Int(7)
      && event["payload"].Object? && event["payload"].members.Keys == {"lock", "expires", "run_id"}
      && event["payload"].members["lock"] == Str("l") && event["payload"].members["expires"] == Int(at) && event["payload"].members["run_id"] == Int(7)
  {
  }

  lemma BlockedValues(at: int)
    ensures Blocked(at).Object?
    ensures var event := Blocked(at).members;
      && event.Keys == EVENT_FIELDS && event["kind"] == Str("blocked") && event["created_at"] == Int(at) && event["run_id"] == Int(7)
      && event["payload"] == Object(map["reason" := Str("done")])
  {
  }

  lemma ReleasedFields()
    ensures IsAuthority(RELEASED) && RELEASED["task"] == TaskOf("ready", Null, Null) && RELEASED["latest_summary"] == Null
    ensures RELEASED["runs"] == Array([]) && RELEASED["events"] == Array([]) && RELEASED["comments"] == Array([])
  {
    TaskFields("ready", Null, Null);
    RootFields(TaskOf("ready", Null, Null), Null, [], []);
    hide Root, TaskOf;
  }

  lemma SameOutside(status: string, started: Value, session: Value, other: string, otherStarted: Value, otherSession: Value)
    ensures TaskOf(status, started, session).Object? && TaskOf(other, otherStarted, otherSession).Object?
    ensures SameDict(Without(TaskOf(status, started, session).members, RUNTIME_FIELDS), Without(TaskOf(other, otherStarted, otherSession).members, RUNTIME_FIELDS))
  {
    var a, b := Without(TaskOf(status, started, session).members, RUNTIME_FIELDS), Without(TaskOf(other, otherStarted, otherSession).members, RUNTIME_FIELDS);
    assert a == b;
    PyEqReflexive(Object(a));
  }

  lemma SameRoots(a: Dict, b: Dict)
    requires a.Keys == b.Keys == REQUIRED
    requires a["parents"] == b["parents"] && a["children"] == b["children"]
    ensures SameDict(Without(a, ROOT_ALLOWED), Without(b, ROOT_ALLOWED))
  {
    assert Without(a, ROOT_ALLOWED) == Without(b, ROOT_ALLOWED);
    PyEqReflexive(Object(Without(a, ROOT_ALLOWED)));
  }

  // ----- The validator accepts them -----

  /** A task claimed or handed back, with one run and any events and summary, passes what is common to both. */
  lemma OneRunIsCommon(status: string, start: int, session: Value, summary: Value, run: Value, events: seq<Value>)
    requires start > 0 && RunOk(run, TERMS)
    ensures Common(RELEASED, Root(TaskOf(status, Int(start), session), summary, [run], events), TERMS)
  {
    var task := TaskOf(status, Int(start), session);
    TaskFields("ready", Null, Null);
    TaskFields(status, Int(start), session);
    RootFields(task, summary, [run], events);
    RootFields(TaskOf("ready", Null, Null), Null, [], []);
    SameOutside(status, Int(start), session, "ready", Null, Null);
    SameRoots(RELEASED, Root(task, summary, [run], events));
    hide SameDict, Root, TaskOf, RunOk, Without;
  }

  lemma FilledX()
    ensures Filled(Str("x"))
  {
    assert Str("x").text[0] == 'x';
  }

  lemma UnderWayRuns(start: int)
    requires start > 0
    ensures IsRunning(RELEASED, UnderWay(start), TERMS)
    ensures UnderWay(start).Keys == REQUIRED && IsAuthority(UnderWay(start)) && Get(Task(UnderWay(start)), "status") == Str("running")
    ensures LastRun(UnderWay(start)) == RunOf("running", start, Null, Null, Null, Int(9))
  {
    var task, run := TaskOf("running", Int(start), Str("x")), RunOf("running", start, Null, Null, Null, Int(9));
    hide Root, TaskOf, RunOf, Claimed, Filled, Common;
    FilledX();
    TaskFields("running", Int(start), Str("x"));
    RunValues("running", start, Null, Null, Null, Int(9));
    ClaimedValues(start);
    RootFields(task, Null, [run], [Claimed(start)]);
    ReleasedFields();
    OneRunIsCommon("running", start, Str("x"), Null, run, [Claimed(start)]);
    assert LastEvents(RELEASED, UnderWay(start)) == [Claimed(start)];
  }

  lemma HandedBackIsHandedOff(start: int, end: int)
    requires 0 < start < end
    ensures HandedOff(RELEASED, HandedBack(start, end), TERMS)
    ensures IsAuthority(HandedBack(start, end)) && Get(Task(HandedBack(start, end)), "status") == Str("blocked")
    ensures LastRun(HandedBack(start, end)) == RunOf("blocked", start, Str("blocked"), Int(end), Str("done"), Null)
  {
    var task, run := TaskOf("blocked", Int(start), Null), RunOf("blocked", start, Str("blocked"), Int(end), Str("done"), Null);
    hide Root, TaskOf, RunOf, Claimed, Blocked, Common;
    TaskFields("blocked", Int(start), Null);
    RunValues("blocked", start, Str("blocked"), Int(end), Str("done"), Null);
    ClaimedValues(start);
    BlockedValues(end);
    RootFields(task, Str("done"), [run], [Claimed(start), Blocked(end)]);
    ReleasedFields();
    PyEqReflexive(Object(map["reason" := Str("done")]));
    OneRunIsCommon("blocked", start, Null, Str("done"), run, [Claimed(start), Blocked(end)]);
    assert LastEvents(RELEASED, HandedBack(start, end)) == [Claimed(start), Blocked(end)];
  }

  lemma {:induction false} UnderWayIsRunning(start: int)
    requires start > 0
    ensures Validate(Object(RELEASED), Object(UnderWay(start)), TERMS, None) == Running
  {
    UnderWayRuns(start);
    hide UnderWay, RunOf;
  }

  lemma SeenIsSameLineage(start: int, restart: int, end: int)
    requires start > 0 && 0 < restart < end
    ensures IsAuthority(HandedBack(restart, end)) && IsAuthority(UnderWay(start))
    ensures SameLineage(HandedBack(restart, end), UnderWay(start), Seen(start))
  {
    hide SameDict, Root, TaskOf, RunOf, Without, Claimed, Blocked, PyEq;
    TaskFields("running", Int(start), Str("x"));
    RunValues("running", start, Null, Null, Null, Int(9));
    RootFields(TaskOf("running", Int(start), Str("x")), Null, [RunOf("running", start, Null, Null, Null, Int(9))], [Claimed(start)]);
    PyEqReflexive(Str("local"));
    PyEqReflexive(Str("/w"));
    PyEqReflexive(Str("b"));
    TaskFields("blocked", Int(restart), Null);
    RootFields(TaskOf("blocked", Int(restart), Null), Str("done"), [RunOf("blocked", restart, Str("blocked"), Int(end), Str("done"), Null)], [Claimed(restart), Blocked(end)]);
    SameOutside("running", Int(start), Str("x"), "blocked", Int(restart), Null);
  }

  /** A handoff that says its run began at another second than the one it was seen to begin at is accepted. */
  lemma {:induction false} ClaimsMayDisagree(start: int, restart: int, end: int)
    requires start > 0 && 0 < restart < end
    ensures Validate(Object(RELEASED), Object(HandedBack(restart, end)), TERMS, Some(Seen(start))) == Terminal
  {
    FilledX();
    hide UnderWay, HandedBack, RunOf, Filled, SameLineage, IsRunning, HandedOff, Common, Validate;
    HandedBackIsHandedOff(restart, end);
    UnderWayRuns(start);
    UnderWayIsRunning(start);
    SeenIsSameLineage(start, restart, end);
    RunValues("running", start, Null, Null, Null, Int(9));
    RunValues("blocked", restart, Str("blocked"), Int(end), Str("done"), Null);
    HandoffAccepted(RELEASED, HandedBack(restart, end), UnderWay(start), TERMS, Seen(start));
  }

  /** What makes the validator accept a handoff. */
  lemma {:induction false} HandoffAccepted(before: Dict, after: Dict, observed: Dict, t: Terms, o: Observation)
    requires HandedOff(before, after, t) && IsAuthority(after) && Get(Task(after), "status") == Str("blocked")
    requires o.snapshot == Some(Object(observed)) && IsAuthority(observed) && Get(Task(observed), "status") == Str("running")
    requires Filled(o.sessionId) && o.pid > 0
    requires LastRun(after).Object? && RUN_FIELDS <= LastRun(after).members.Keys && LastRun(after).members["id"] == Int(o.runId)
    requires LastRun(observed).Object? && PyEq(Get(LastRun(observed).members, "id"), Int(o.runId))
    requires Validate(Object(before), Object(observed), t, None) == Running && SameLineage(after, observed, o)
    ensures Validate(Object(before), Object(after), t, Some(o)) == Terminal
  {
    hide Common, IsRunning, SameLineage;
    HandedOffIsCommon(before, after, t);
  }

  lemma HandedOffIsCommon(before: Dict, after: Dict, t: Terms)
    requires HandedOff(before, after, t)
    ensures Common(before, after, t)
  {
    hide Common;
  }
}
