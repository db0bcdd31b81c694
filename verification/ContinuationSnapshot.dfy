/**
  validate_activation_continuation_snapshot: how a released task may go on, first
  to one run that is under way, then to that run handed off.
 */
module ContinuationSnapshot {
  import opened Options
  import opened Json
  import opened Snapshot

  /** What the release was acknowledged for. */
  datatype Terms = Terms(acknowledgedAt: int, profile: string, workspacePath: string, branch: string, repositoryIdentity: string, baseSha: string, handoff: string)

  /**
    The row recorded when the run was seen running. snapshot is the document its
    text parses to, None when the text is empty, malformed or not canonical;
    hashed is the document its hash was taken of.
   */
  datatype Observation = Observation(runId: int, sessionId: Value, pid: int, snapshot: Option<Value>, hashed: Value, profile: Value, workspacePath: Value, branch: Value)

  datatype Verdict = Running | Terminal | Refused

  const ROOT_ALLOWED: set<string> := {"task", "latest_summary", "runs", "events", "comments"}
  const RUNTIME_FIELDS: set<string> := {"status", "started_at", "completed_at", "session_id"}
  const RUN_FIELDS: set<string> := {"id", "status", "outcome", "started_at", "ended_at", "summary", "profile", "worker_pid", "metadata"}
  const EVENT_FIELDS: set<string> := {"kind", "payload", "created_at", "run_id"}

  predicate IsNat(v: Value) {
    v.Int? && v.number >= 0
  }

  predicate NoneOr(v: Value, s: string) {
    v == Null || v == Str(s)
  }

  function Task(root: Dict): Dict
    requires IsAuthority(root)
  {
    root["task"].members
  }

  /** What is required whichever way the task went on; the run is the newest one. */
  predicate Common(before: Dict, after: Dict, t: Terms) {
    && t.acknowledgedAt >= 0 && IsAuthority(before) && IsAuthority(after)
    && SameDict(Without(before, ROOT_ALLOWED), Without(after, ROOT_ALLOWED))
    && Get(Task(before), "status") == Str("ready")
    && PyEq(before["comments"], after["comments"])
    && "session_id" in Task(before) && "session_id" in Task(after) && "started_at" in Task(before) && "started_at" in Task(after)
    && Get(Task(after), "branch_name") == Str(t.branch)
    && NoneOr(Get(Task(after), "repository_identity"), t.repositoryIdentity) && NoneOr(Get(Task(after), "base_sha"), t.baseSha)
    && Get(Task(after), "completed_at") == Null
    && Extends(before["runs"], after["runs"], 1) && before["events"].Array? && after["events"].Array?
    && RunOk(LastRun(after), t)
    && SameDict(Without(Task(after), RUNTIME_FIELDS), Without(Task(before), RUNTIME_FIELDS))
    && Get(Task(after), "assignee") == Str(t.profile) && Get(Task(after), "workspace_kind") == Str("worktree")
    && Get(Task(after), "workspace_path") == Str(t.workspacePath)
  }

  /** n items more, and the ones before the same. */
  predicate Extends(prior: Value, later: Value, n: nat) {
    prior.Array? && later.Array? && |later.items| == |prior.items| + n && SameList(later.items[..|prior.items|], prior.items)
  }

  function LastRun(root: Dict): Value {
    if "runs" in root && root["runs"].Array? && root["runs"].items != [] then root["runs"].items[|root["runs"].items| - 1] else Null
  }

  predicate RunOk(run: Value, t: Terms) {
    && run.Object? && RUN_FIELDS <= run.members.Keys
    && run.members["profile"] == Str(t.profile) && IsNat(run.members["id"]) && IsNat(run.members["started_at"])
    && run.members["started_at"].number > t.acknowledgedAt
  }

  predicate RunningRun(run: Dict)
    requires RUN_FIELDS <= run.Keys
  {
    && run["status"] == Str("running") && run["outcome"] == Null && run["ended_at"] == Null && run["summary"] == Null && run["metadata"] == Null
    && run["worker_pid"].Int? && run["worker_pid"].number > 0
  }

  predicate EventOf(event: Value, kind: string, run: Dict)
    requires RUN_FIELDS <= run.Keys
  {
    && event.Object? && event.members.Keys == EVENT_FIELDS && event.members["kind"] == Str(kind) && PyEq(event.members["run_id"], run["id"])
    && event.members["created_at"].Int?
  }

  predicate ClaimPayload(payload: Value, run: Dict, at: int)
    requires RUN_FIELDS <= run.Keys
  {
    && payload.Object? && payload.members.Keys == {"lock", "expires", "run_id"} && PyEq(payload.members["run_id"], run["id"])
    && payload.members["lock"].Str? && payload.members["lock"].text != ""
    && payload.members["expires"].Int? && payload.members["expires"].number >= at
  }

  function LastEvents(before: Dict, after: Dict): seq<Value> {
    if "events" in before && "events" in after && before["events"].Array? && after["events"].Array? && |after["events"].items| >= |before["events"].items|
    then after["events"].items[|before["events"].items|..] else []
  }

  /** The task has been claimed: one run under way, and the event that says so. */
  predicate IsRunning(before: Dict, after: Dict, t: Terms) {
    && Common(before, after, t)
    && var run := LastRun(after).members;
      && Filled(Get(Task(after), "session_id")) && PyEq(Get(Task(after), "started_at"), run["started_at"])
      && RunningRun(run)
      && Extends(before["events"], after["events"], 1) && PyEq(after["latest_summary"], before["latest_summary"])
      && var events := LastEvents(before, after);
        && |events| == 1 && EventOf(events[0], "claimed", run) && events[0].members["created_at"] == run["started_at"]
        && ClaimPayload(events[0].members["payload"], run, events[0].members["created_at"].number)
  }

  predicate BlockedRun(run: Dict, t: Terms)
    requires RUN_FIELDS <= run.Keys && run["started_at"].Int?
  {
    && run["status"] == Str("blocked") && run["outcome"] == Str("blocked") && run["summary"] == Str(t.handoff)
    && IsNat(run["ended_at"]) && run["ended_at"].number > run["started_at"].number
    && run["worker_pid"] == Null && run["metadata"] == Null
  }

  predicate HandedOff(before: Dict, after: Dict, t: Terms) {
    && Common(before, after, t)
    && var run := LastRun(after).members;
      && Get(Task(after), "session_id") == Null && BlockedRun(run, t) && PyEq(Get(Task(after), "started_at"), run["started_at"])
      && Extends(before["events"], after["events"], 2) && after["latest_summary"] == Str(t.handoff)
      && var events := LastEvents(before, after);
        && |events| == 2 && EventOf(events[0], "claimed", run) && EventOf(events[1], "blocked", run)
        && events[0].members["created_at"] == run["started_at"] && events[1].members["created_at"] == run["ended_at"]
        && PyEq(events[1].members["payload"], Object(map["reason" := Str(t.handoff)]))
  }

  /** The observation speaks of this task and this run. */
  predicate SameLineage(after: Dict, observed: Dict, prior: Observation)
    requires IsAuthority(after) && IsAuthority(observed)
  {
    && SameDict(Without(Task(observed), RUNTIME_FIELDS), Without(Task(after), RUNTIME_FIELDS))
    && Get(Task(observed), "session_id") == prior.sessionId && LastRun(observed).Object? && Get(LastRun(observed).members, "worker_pid") == Int(prior.pid)
    && prior.hashed == Object(observed)
    && PyEq(prior.profile, Get(LastRun(observed).members, "profile")) && PyEq(prior.workspacePath, Get(Task(observed), "workspace_path"))
    && PyEq(prior.branch, Get(Task(observed), "branch_name"))
  }

  /** The validator. Checking a handoff checks the observation as a run under way, which needs no observation in turn. */
  function Validate(post: Value, current: Value, t: Terms, prior: Option<Observation>): Verdict
    decreases prior.Some?
  {
    if !post.Object? || !current.Object? || !Common(post.members, current.members, t) then Refused
    else
      var before, after := post.members, current.members;
      var status := Get(Task(after), "status");
      if status == Str("running") then
        if IsRunning(before, after, t) then Running else Refused
      else if status == Str("blocked") || status == Str("triage") then
        if prior == None || !HandedOff(before, after, t) then Refused
        else
          var run, o := LastRun(after).members, prior.value;
          if o.runId != run["id"].number || !Filled(o.sessionId) || o.pid <= 0 || o.snapshot == None || !o.snapshot.value.Object? then Refused
          else
            var observed := o.snapshot.value.members;
            if !IsAuthority(observed) || Get(Task(observed), "status") != Str("running") then Refused
            else if !LastRun(observed).Object? || !PyEq(Get(LastRun(observed).members, "id"), run["id"]) then Refused
            else if Validate(post, o.snapshot.value, t, None) != Running then Refused
            else if SameLineage(after, observed, o) then Terminal
            else Refused
      else Refused
  }

  // ----- What a verdict says -----

  /** The task both verdicts are about: released as signed, and still the one of the terms. */
  lemma AcceptedIsTheTask(post: Value, current: Value, t: Terms, prior: Option<Observation>)
    requires Validate(post, current, t, prior) != Refused
    ensures post.Object? && current.Object? && IsAuthority(post.members) && IsAuthority(current.members)
    ensures var before, task := Task(post.members), Task(current.members);
      && Get(before, "status") == Str("ready") && {"session_id", "started_at"} <= before.Keys * task.Keys
      && Get(task, "branch_name") == Str(t.branch) && Get(task, "assignee") == Str(t.profile)
      && Get(task, "workspace_kind") == Str("worktree") && Get(task, "workspace_path") == Str(t.workspacePath)
      && Get(task, "repository_identity") in {Null, Str(t.repositoryIdentity)} && Get(task, "base_sha") in {Null, Str(t.baseSha)}
      && Get(task, "completed_at") == Null
    ensures var run := LastRun(current.members);
      && run.Object? && RUN_FIELDS <= run.members.Keys && run.members["profile"] == Str(t.profile)
      && run.members["id"].Int? && run.members["id"].number >= 0
      && run.members["started_at"].Int? && run.members["started_at"].number > t.acknowledgedAt >= 0
  {
    hide IsRunning, HandedOff, SameLineage, SameDict, SameList, PyEq, Without;
  }

  /**
    Accepted as running: the newest run is under way, with a worker and a session
    and nothing to show yet, and one event says when it was claimed and until when.
   */
  lemma RunningMeans(post: Value, current: Value, t: Terms, prior: Option<Observation>)
    requires Validate(post, current, t, prior) == Running
    ensures post.Object? && current.Object? && IsAuthority(post.members) && IsAuthority(current.members)
    ensures LastRun(current.members).Object? && RUN_FIELDS <= LastRun(current.members).members.Keys
    ensures var task, run := Task(current.members), LastRun(current.members).members;
      && Get(task, "status") == Str("running") && Filled(Get(task, "session_id")) && PyEq(Get(task, "started_at"), run["started_at"])
      && run["status"] == Str("running") && run["outcome"] == Null && run["ended_at"] == Null && run["summary"] == Null && run["metadata"] == Null
      && run["worker_pid"].Int? && run["worker_pid"].number > 0
    ensures var events, run := LastEvents(post.members, current.members), LastRun(current.members).members;
      && |events| == 1 && events[0].Object? && EVENT_FIELDS == events[0].members.Keys
      && var event := events[0].members;
        && event["kind"] == Str("claimed") && PyEq(event["run_id"], run["id"]) && event["created_at"] == run["started_at"]
        && event["payload"].Object? && {"lock", "expires", "run_id"} == event["payload"].members.Keys
        && PyEq(event["payload"].members["run_id"], run["id"])
        && event["payload"].members["lock"].Str? && event["payload"].members["lock"].text != ""
        && event["payload"].members["expires"].Int? && event["created_at"].Int?
        && event["payload"].members["expires"].number >= event["created_at"].number
  {
  }

  /**
    Accepted as handed off: the newest run ended blocked with the handoff as its
    summary and its reason, the task has no session and no worker any more, and
    there is an observation, itself accepted as running, of this very run.
   */
  lemma TerminalMeans(post: Value, current: Value, t: Terms, prior: Option<Observation>)
    requires Validate(post, current, t, prior) == Terminal
    ensures post.Object? && current.Object? && IsAuthority(post.members) && IsAuthority(current.members)
    ensures LastRun(current.members).Object? && RUN_FIELDS <= LastRun(current.members).members.Keys
    ensures var task, run := Task(current.members), LastRun(current.members).members;
      && Get(task, "status") in {Str("blocked"), Str("triage")} && Get(task, "session_id") == Null && PyEq(Get(task, "started_at"), run["started_at"])
      && run["status"] == Str("blocked") && run["outcome"] == Str("blocked") && run["summary"] == Str(t.handoff)
      && run["worker_pid"] == Null && run["metadata"] == Null
      && run["started_at"].Int? && run["ended_at"].Int? && run["ended_at"].number > run["started_at"].number
      && current.members["latest_summary"] == Str(t.handoff)
    ensures var events, run := LastEvents(post.members, current.members), LastRun(current.members).members;
      && |events| == 2 && (forall k :: 0 <= k < 2 ==> events[k].Object? && EVENT_FIELDS == events[k].members.Keys)
      && events[0].members["kind"] == Str("claimed") && events[0].members["created_at"] == run["started_at"] && PyEq(events[0].members["run_id"], run["id"])
      && events[1].members["kind"] == Str("blocked") && events[1].members["created_at"] == run["ended_at"] && PyEq(events[1].members["run_id"], run["id"])
      && PyEq(events[1].members["payload"], Object(map["reason" := Str(t.handoff)]))
  {
    hide PyEq, SameDict, IsRunning, SameLineage;
  }

  lemma TerminalWasSeen(post: Value, current: Value, t: Terms, prior: Option<Observation>)
    requires Validate(post, current, t, prior) == Terminal
    ensures prior.Some? && prior.value.snapshot.Some? && prior.value.snapshot.value.Object? && prior.value.pid > 0
    ensures Validate(post, prior.value.snapshot.value, t, None) == Running && prior.value.hashed == prior.value.snapshot.value
    ensures current.Object? && IsAuthority(current.members) && IsAuthority(prior.value.snapshot.value.members)
    ensures var o, observed, after := prior.value, prior.value.snapshot.value.members, current.members;
      && LastRun(observed).Object? && LastRun(after).Object?
      && var seen, run := LastRun(observed).members, LastRun(after).members;
        && Get(run, "id") == Int(o.runId) && PyEq(Get(seen, "id"), Get(run, "id")) && Get(seen, "worker_pid") == Int(o.pid)
        && Filled(o.sessionId) && Get(Task(observed), "session_id") == o.sessionId
        && PyEq(o.profile, Get(seen, "profile")) && PyEq(o.workspacePath, Get(Task(observed), "workspace_path"))
        && PyEq(o.branch, Get(Task(observed), "branch_name"))
        && SameDict(Without(Task(observed), RUNTIME_FIELDS), Without(Task(after), RUNTIME_FIELDS))
  {
  }

  // ----- What an accepted chain keeps -----

  /** Everything the validator has no right to see changed, between two snapshots of one chain. */
  predicate Untouched(a: Dict, b: Dict)
    requires IsAuthority(a) && IsAuthority(b)
  {
    && SameDict(Without(a, ROOT_ALLOWED), Without(b, ROOT_ALLOWED))
    && SameDict(Without(Task(a), RUNTIME_FIELDS), Without(Task(b), RUNTIME_FIELDS))
    && PyEq(a["comments"], b["comments"])
  }

  lemma ListTransitive(a: seq<Value>, b: seq<Value>, c: seq<Value>)
    requires SameList(a, b) && SameList(b, c)
    ensures SameList(a, c)
  {
    PyEqTransitive(Array(a), Array(b), Array(c));
  }

  lemma CommonIsUntouched(before: Dict, after: Dict, t: Terms)
    requires Common(before, after, t)
    ensures Untouched(before, after)
  {
    PyEqSymmetric(Object(Without(Task(after), RUNTIME_FIELDS)), Object(Without(Task(before), RUNTIME_FIELDS)));
  }

  lemma UntouchedTransitive(a: Dict, b: Dict, c: Dict)
    requires IsAuthority(a) && IsAuthority(b) && IsAuthority(c) && Untouched(a, b) && Untouched(b, c)
    ensures Untouched(a, c)
  {
    PyEqTransitive(Object(Without(a, ROOT_ALLOWED)), Object(Without(b, ROOT_ALLOWED)), Object(Without(c, ROOT_ALLOWED)));
    PyEqTransitive(Object(Without(Task(a), RUNTIME_FIELDS)), Object(Without(Task(b), RUNTIME_FIELDS)), Object(Without(Task(c), RUNTIME_FIELDS)));
    PyEqTransitive(a["comments"], b["comments"], c["comments"]);
  }

  lemma UntouchedSymmetric(a: Dict, b: Dict)
    requires IsAuthority(a) && IsAuthority(b) && Untouched(a, b)
    ensures Untouched(b, a)
  {
    PyEqSymmetric(Object(Without(a, ROOT_ALLOWED)), Object(Without(b, ROOT_ALLOWED)));
    PyEqSymmetric(Object(Without(Task(a), RUNTIME_FIELDS)), Object(Without(Task(b), RUNTIME_FIELDS)));
    PyEqSymmetric(a["comments"], b["comments"]);
  }

  /** A handoff is accepted only after a running snapshot that would be accepted itself. */
  lemma {:induction false} HandoffWasRunning(post: Value, current: Value, t: Terms, o: Observation)
    requires Validate(post, current, t, Some(o)) == Terminal
    ensures post.Object? && current.Object? && o.snapshot.Some? && o.snapshot.value.Object?
    ensures Validate(post, o.snapshot.value, t, None) == Running
    ensures HandedOff(post.members, current.members, t) && IsRunning(post.members, o.snapshot.value.members, t)
    ensures LastRun(current.members).members["id"].number == o.runId
    ensures PyEq(Get(LastRun(o.snapshot.value.members).members, "id"), LastRun(current.members).members["id"])
  {
  }

  /**
    Along an accepted chain, released to running to handed off: nothing outside
    the lifecycle changes, one run is added and stays that run, and it began
    after the acknowledgement and ended after it began.
   */
  lemma {:induction false} ChainKeeps(post: Value, current: Value, t: Terms, o: Observation)
    requires Validate(post, current, t, Some(o)) == Terminal
    ensures post.Object? && current.Object? && o.snapshot.Some? && o.snapshot.value.Object?
    ensures var (before, observed, after) := (post.members, o.snapshot.value.members, current.members);
      && IsAuthority(before) && IsAuthority(observed) && IsAuthority(after)
      && Untouched(before, observed) && Untouched(observed, after) && Untouched(before, after)
      && Extends(before["runs"], observed["runs"], 1) && Extends(before["runs"], after["runs"], 1)
      && Extends(before["events"], observed["events"], 1) && Extends(before["events"], after["events"], 2)
    ensures var run := LastRun(current.members);
      && run.Object? && RUN_FIELDS <= run.members.Keys && run.members["id"] == Int(o.runId)
      && run.members["started_at"].Int? && run.members["ended_at"].Int?
      && t.acknowledgedAt < run.members["started_at"].number < run.members["ended_at"].number
  {
    HandoffWasRunning(post, current, t, o);
    hide Validate, PyEq, SameDict, SameList;
    var before, observed, after := post.members, o.snapshot.value.members, current.members;
    CommonIsUntouched(before, observed, t);
    CommonIsUntouched(before, after, t);
    UntouchedSymmetric(before, observed);
    UntouchedTransitive(observed, before, after);
  }

  lemma PrefixesAgree(prior: seq<Value>, a: seq<Value>, b: seq<Value>, last: Value, other: Value)
    requires |a| == |prior| + 1 && |b| == |prior| + 2 && SameList(a[..|prior|], prior) && SameList(b[..|prior|], prior)
    requires a[|prior|] == last && b[|prior|] == other
    ensures SameList(b[..|a|], a) <==> PyEq(other, last)
  {
    PyEqSymmetric(Array(a[..|prior|]), Array(prior));
    ListTransitive(b[..|prior|], prior, a[..|prior|]);
    if PyEq(other, last) {
      forall i | 0 <= i < |a| ensures PyEq(b[..|a|][i], a[i]) {
        if i < |prior| {
          assert PyEq(b[..|prior|][i], a[..|prior|][i]);
        }
      }
    } else {
      assert b[..|a|][|prior|] == other;
    }
  }

  lemma ClaimsAgree(a: Value, b: Value, run: Dict, later: Dict)
    requires RUN_FIELDS <= run.Keys && RUN_FIELDS <= later.Keys && PyEq(run["id"], later["id"])
    requires EventOf(a, "claimed", run) && EventOf(b, "claimed", later)
    ensures PyEq(b, a) <==> b.members["created_at"] == a.members["created_at"] && PyEq(b.members["payload"], a.members["payload"])
  {
    PyEqSymmetric(a.members["run_id"], run["id"]);
    PyEqSymmetric(run["id"], later["id"]);
    PyEqTransitive(b.members["run_id"], later["id"], run["id"]);
    PyEqTransitive(b.members["run_id"], run["id"], a.members["run_id"]);
  }

  /**
    The event history the handoff shows grows out of the one seen running exactly
    when it claims the task at the same second with the same payload: both end
    in a claim, and the validator does not compare the two.
   */
  lemma {:induction false} HistoryGrowsIffSameClaim(post: Value, current: Value, t: Terms, o: Observation)
    requires Validate(post, current, t, Some(o)) == Terminal
    ensures post.Object? && current.Object? && o.snapshot.Some? && o.snapshot.value.Object?
    ensures var (before, observed, after) := (post.members, o.snapshot.value.members, current.members);
      && IsAuthority(observed) && IsAuthority(after)
      && var (seen, told) := (LastEvents(before, observed), LastEvents(before, after));
        && |seen| == 1 && |told| == 2 && seen[0].Object? && told[0].Object? && seen[0].members.Keys == EVENT_FIELDS == told[0].members.Keys
        && (Extends(observed["events"], after["events"], 1) <==>
            told[0].members["created_at"] == seen[0].members["created_at"] && PyEq(told[0].members["payload"], seen[0].members["payload"]))
  {
    HandoffWasRunning(post, current, t, o);
    hide Validate, PyEq, SameDict;
    var before, observed, after := post.members, o.snapshot.value.members, current.members;
    var prior, a, b := before["events"].items, observed["events"].items, after["events"].items;
    var seen, told := LastEvents(before, observed), LastEvents(before, after);
    assert a[|prior|] == seen[0] && b[|prior|] == told[0];
    PrefixesAgree(prior, a, b, seen[0], told[0]);
    ClaimsAgree(seen[0], told[0], LastRun(observed).members, LastRun(after).members);
  }
}
