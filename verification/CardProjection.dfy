/**
  GeneratedProjectionWorker.deliver_one for one card: workers claim its row,
  create the task under its key, show it, and record it, in real time and killed
  anywhere. Creating under a key that has a task gives that task again; a create
  that failed, or whose worker died, may land at any time after it began.
 */
module CardProjection {
  import opened Options
  import opened Lease

  type TaskId = nat

  datatype Policy = Policy(lease: int, timeout: int, margin: int, retryDelay: int) {
    /** validate_for. */
    predicate ValidFor() {
      timeout >= 1 && retryDelay >= 1 && margin >= 1 && lease >= 2 * timeout + margin
    }
  }

  datatype Row = Row(lease: Option<(nat, int)>, due: Option<int>, failed: bool, task: Option<TaskId>)

  datatype Proc =
    | Idle
    | Creating(deadline: real)
    | Showing(task: TaskId, deadline: real)
    | Completing(task: TaskId)
    | Retrying
    | Failing

  /** tasks are those ever created under the key; begun says that a create was sent. */
  datatype World = World(clock: real, row: Row, procs: map<nat, Proc>, tasks: seq<TaskId>, begun: bool)

  datatype Event =
    | Pass(seconds: real)
    | Claim(i: nat, payloadSound: bool)
    | Lands(newId: TaskId)
    | Created(i: nat, newId: TaskId, ok: bool)
    | Shown(i: nat, ok: bool, matches: bool)
    | Record(i: nat)
    | Crash(i: nat)

  const Fresh := World(0.0, Row(None, None, false, None), map[], [], false)

  function ProcOf(w: World, i: nat): Proc {
    if i in w.procs then w.procs[i] else Idle
  }

  /** A worker between its claim and the end of its calls. */
  predicate Calls(proc: Proc) {
    proc.Creating? || proc.Showing?
  }

  predicate Claimable(row: Row, now: int) {
    && !row.failed && row.task == None && (row.due.Some? ==> row.due.value <= now)
    && (row.lease.Some? ==> row.lease.value.1 <= now)
  }

  predicate Owns(row: Row, i: nat, now: int) {
    row.lease.Some? && row.lease.value.0 == i && row.lease.value.1 > now
  }

  function Claimed(p: Policy, w: World, i: nat, payloadSound: bool): World {
    var now := w.clock.Floor;
    if !Claimable(w.row, now) then w
    else
      var next := if payloadSound then Creating(w.clock + p.timeout as real) else Failing;
      w.(row := w.row.(lease := Some((i, now + p.lease))), procs := w.procs[i := next], begun := w.begun || payloadSound)
  }

  /** A create takes effect, whether or not anybody waits for it. */
  function WithTask(tasks: seq<TaskId>, newId: TaskId): seq<TaskId> {
    if tasks == [] then [newId] else tasks
  }

  /** create_microticket returned, or did not. */
  function CreateEnds(p: Policy, w: World, i: nat, newId: TaskId, ok: bool): World {
    var tasks := WithTask(w.tasks, newId);
    if ok then w.(tasks := tasks, procs := w.procs[i := Showing(tasks[0], w.clock + p.timeout as real)])
    else w.(procs := w.procs[i := Retrying])
  }

  function ShowEnds(w: World, i: nat, task: TaskId, ok: bool, matches: bool): World {
    w.(procs := w.procs[i := if !ok then Retrying else if matches then Completing(task) else Failing])
  }

  /** The ledger writes, each refused unless the worker still owns the lease; each reads the clock anew. */
  function Recorded(p: Policy, row: Row, i: nat, proc: Proc, now: int): Row {
    match proc
    case Completing(task) =>
      if row.task == None && Owns(row, i, now) then row.(task := Some(task), lease := None) else row
    case Retrying =>
      if row.task == None && Owns(row, i, now) then row.(due := Some(now + p.retryDelay), lease := None) else row
    case Failing =>
      if row.task == None && !row.failed && Owns(row, i, now) then row.(failed := true, lease := None) else row
    case _ => row
  }

  predicate MayPass(w: World, seconds: real) {
    seconds >= 0.0 && forall i :: i in w.procs && Calls(w.procs[i]) ==> w.clock + seconds <= w.procs[i].deadline
  }

  function Happen(p: Policy, w: World, e: Event): World {
    match e
    case Pass(seconds) => if MayPass(w, seconds) then w.(clock := w.clock + seconds) else w
    case Claim(i, payloadSound) => if ProcOf(w, i).Idle? then Claimed(p, w, i, payloadSound) else w
    case Lands(newId) => if w.begun then w.(tasks := WithTask(w.tasks, newId)) else w
    case Created(i, newId, ok) => if ProcOf(w, i).Creating? then CreateEnds(p, w, i, newId, ok) else w
    case Shown(i, ok, matches) => if ProcOf(w, i).Showing? then ShowEnds(w, i, ProcOf(w, i).task, ok, matches) else w
    case Record(i) =>
      if ProcOf(w, i).Completing? || ProcOf(w, i).Retrying? || ProcOf(w, i).Failing?
      then w.(row := Recorded(p, w.row, i, ProcOf(w, i), w.clock.Floor), procs := w.procs[i := Idle])
      else w
    case Crash(i) => w.(procs := w.procs[i := Idle])
  }

  function After(p: Policy, w: World, events: seq<Event>): World {
    if events == [] then w else Happen(p, After(p, w, events[..|events| - 1]), events[|events| - 1])
  }

  ghost predicate Overlap(w: World) {
    exists i, j :: i != j && i in w.procs && j in w.procs && Calls(w.procs[i]) && Calls(w.procs[j])
  }

  /** Where a run ends, two workers are calling at once. */
  ghost predicate Overlaps(p: Policy, events: seq<Event>) {
    Overlap(After(p, Fresh, events))
  }

  ghost predicate ProcOk(p: Policy, w: World, i: nat, proc: Proc) {
    && (Calls(proc) ==> w.row.lease.Some? && w.row.lease.value.0 == i && w.clock <= proc.deadline && proc.deadline < w.row.lease.value.1 as real)
    && (proc.Creating? ==> proc.deadline + p.timeout as real < w.row.lease.value.1 as real)
    && (proc.Showing? || proc.Completing? ==> w.tasks == [proc.task])
  }

  ghost predicate Inv(p: Policy, w: World) {
    && (forall i :: i in w.procs ==> ProcOk(p, w, i, w.procs[i]))
    && |w.tasks| <= 1
    && (w.row.task.Some? ==> w.tasks == [w.row.task.value])
  }

  lemma ClaimKeeps(p: Policy, w: World, i: nat, payloadSound: bool)
    requires Inv(p, w) && p.timeout >= 1 && p.lease >= 2 * p.timeout + 1
    ensures Inv(p, Happen(p, w, Claim(i, payloadSound)))
  {
    var w' := Happen(p, w, Claim(i, payloadSound));
    LeaseCovers(p.lease, 2.0 * p.timeout as real);
    forall j | j in w'.procs ensures ProcOk(p, w', j, w'.procs[j]) {
      if j in w.procs {
        assert ProcOk(p, w, j, w.procs[j]);
      }
    }
  }

  lemma RecordKeeps(p: Policy, w: World, i: nat)
    requires Inv(p, w)
    ensures Inv(p, Happen(p, w, Record(i)))
  {
    var w' := Happen(p, w, Record(i));
    if i in w.procs {
      assert ProcOk(p, w, i, w.procs[i]);
    }
    forall j | j in w'.procs ensures ProcOk(p, w', j, w'.procs[j]) {
      assert j in w.procs ==> ProcOk(p, w, j, w.procs[j]);
    }
  }

  lemma CallEndKeeps(p: Policy, w: World, e: Event)
    requires Inv(p, w) && p.timeout >= 1 && (e.Lands? || e.Created? || e.Shown?)
    ensures Inv(p, Happen(p, w, e))
  {
    var w' := Happen(p, w, e);
    forall j | j in w'.procs ensures ProcOk(p, w', j, w'.procs[j]) {
      assert j in w.procs && ProcOk(p, w, j, w.procs[j]);
    }
  }

  lemma HappenKeeps(p: Policy, w: World, e: Event)
    requires Inv(p, w) && p.timeout >= 1 && p.lease >= 2 * p.timeout + 1
    ensures Inv(p, Happen(p, w, e))
  {
    match e
    case Claim(i, payloadSound) => ClaimKeeps(p, w, i, payloadSound);
    case Record(i) => RecordKeeps(p, w, i);
    case Pass(_) =>
      forall j | j in w.procs ensures ProcOk(p, Happen(p, w, e), j, w.procs[j]) {
        assert ProcOk(p, w, j, w.procs[j]);
      }
    case Crash(_) =>
      forall j | j in w.procs ensures ProcOk(p, w, j, w.procs[j]) {
      }
    case _ => CallEndKeeps(p, w, e);
  }

  lemma {:induction false} AfterKeeps(p: Policy, events: seq<Event>)
    requires p.timeout >= 1 && p.lease >= 2 * p.timeout + 1
    ensures Inv(p, After(p, Fresh, events))
    decreases |events|
  {
    if events != [] {
      AfterKeeps(p, events[..|events| - 1]);
      HappenKeeps(p, After(p, Fresh, events[..|events| - 1]), events[|events| - 1]);
    }
  }

  lemma OneWindow(p: Policy, events: seq<Event>)
    requires p.timeout >= 1 && p.lease >= 2 * p.timeout + 1
    ensures !Overlap(After(p, Fresh, events))
  {
    AfterKeeps(p, events);
    var w := After(p, Fresh, events);
    forall i, j | i != j && i in w.procs && j in w.procs ensures !(Calls(w.procs[i]) && Calls(w.procs[j])) {
      assert ProcOk(p, w, i, w.procs[i]) && ProcOk(p, w, j, w.procs[j]);
    }
  }

  /** Under a policy that validates, two workers are never between claim and show at once, and a delivered row holds the one task of its key. */
  lemma WindowsNeverOverlap(p: Policy, events: seq<Event>)
    requires p.ValidFor()
    ensures var w := After(p, Fresh, events);
      !Overlap(w) && |w.tasks| <= 1 && (w.row.task.Some? ==> w.tasks == [w.row.task.value])
  {
    AfterKeeps(p, events);
    OneWindow(p, events);
  }

  lemma AfterThen(p: Policy, events: seq<Event>, e: Event)
    ensures After(p, Fresh, events + [e]) == Happen(p, After(p, Fresh, events), e)
  {
    assert (events + [e])[..|events|] == events;
  }

  /** Late in a second a worker claims. */
  lemma LateClaim(p: Policy, read: real) returns (events: seq<Event>)
    requires p.timeout >= 1 && 0.0 <= read < 1.0 && read.Floor == 0
    ensures After(p, Fresh, events) ==
      World(read, Row(Some((0, p.lease)), None, false, None), map[0 := Creating(read + p.timeout as real)], [], true)
  {
    events := [Pass(read)];
    AfterThen(p, [], Pass(read));
    assert [] + [Pass(read)] == [Pass(read)];
    assert After(p, Fresh, events) == World(read, Row(None, None, false, None), map[], [], false);
    AfterThen(p, events, Claim(0, true));
    events := events + [Claim(0, true)];
  }

  /** Its create takes as long as it may, and then it shows its task, until just after a lease that is too short has ended. */
  lemma SlowShow(p: Policy, read: real, claimed: seq<Event>) returns (events: seq<Event>)
    requires p.timeout >= 1
    requires After(p, Fresh, claimed) ==
      World(read, Row(Some((0, p.lease)), None, false, None), map[0 := Creating(read + p.timeout as real)], [], true)
    ensures var clock := read + p.timeout as real;
      After(p, Fresh, events) ==
        World(clock, Row(Some((0, p.lease)), None, false, None), map[0 := Showing(7, clock + p.timeout as real)], [7], true)
  {
    AfterThen(p, claimed, Pass(p.timeout as real));
    events := claimed + [Pass(p.timeout as real)];
    AfterThen(p, events, Created(0, 7, true));
    events := events + [Created(0, 7, true)];
  }

  lemma SecondClaim(p: Policy, clock: real, slow: seq<Event>) returns (events: seq<Event>)
    requires p.timeout >= 1 && clock >= 0.0 && clock + p.timeout as real > p.lease as real
    requires After(p, Fresh, slow) ==
      World(clock, Row(Some((0, p.lease)), None, false, None), map[0 := Showing(7, clock + p.timeout as real)], [7], true)
    ensures Overlap(After(p, Fresh, events))
  {
    var wait := if p.lease as real > clock then p.lease as real - clock else 0.0;
    AfterThen(p, slow, Pass(wait));
    events := slow + [Pass(wait)];
    var w := After(p, Fresh, events);
    assert w.clock >= p.lease as real && w.clock.Floor >= p.lease;
    AfterThen(p, events, Claim(1, true));
    events := events + [Claim(1, true)];
    w := After(p, Fresh, events);
    assert Calls(w.procs[0]) && Calls(w.procs[1]);
  }

  /** The margin is needed, and a second of it is enough: windows never overlap exactly when the lease is a second longer than both calls. */
  lemma NoOverlapIffMargin(p: Policy)
    requires p.timeout >= 1
    ensures (forall events: seq<Event> :: !Overlaps(p, events)) <==> p.lease >= 2 * p.timeout + 1
  {
    if p.lease >= 2 * p.timeout + 1 {
      forall events: seq<Event> ensures !Overlaps(p, events) {
        OneWindow(p, events);
      }
    } else {
      var read := LateRead(p.lease, 2.0 * p.timeout as real);
      var claimed := LateClaim(p, read);
      var slow := SlowShow(p, read, claimed);
      var events := SecondClaim(p, read + p.timeout as real, slow);
      assert Overlaps(p, events);
    }
  }

  // ----- One worker left to itself -----

  /** A row that is delivered, failed, waiting for its retry or leased is left alone. */
  lemma OnlyClaimableIsClaimed(p: Policy, w: World, i: nat, payloadSound: bool)
    requires w.row.failed || w.row.task.Some? || (w.row.due.Some? && w.row.due.value > w.clock.Floor)
      || (w.row.lease.Some? && w.row.lease.value.1 > w.clock.Floor)
    ensures Happen(p, w, Claim(i, payloadSound)) == w
  {
  }

  /** How one delivery goes: the payload is unsound, the create or the show fails, or the task shown is as it should be or not. */
  datatype Course = Unsound | CreateFails | ShowFails | Drifted | Sound

  function Delivered(p: Policy, w: World, i: nat, newId: TaskId, course: Course): World {
    var claimed := Happen(p, w, Claim(i, !course.Unsound?));
    var created := if course.Unsound? then claimed else Happen(p, claimed, Created(i, newId, !course.CreateFails?));
    var shown := if course.Unsound? || course.CreateFails? then created
                 else Happen(p, created, Shown(i, !course.ShowFails?, course.Sound?));
    Happen(p, shown, Record(i))
  }

  /**
    The whole of one delivery, for every way it can go: a task shown as it should be
    is recorded and the lease given up; a call that fails is tried again after the
    delay; a task that drifted, or a payload that is unsound, fails the row.
   */
  lemma DeliveryLeaves(p: Policy, w: World, i: nat, newId: TaskId, course: Course)
    requires p.ValidFor() && ProcOf(w, i) == Idle && Claimable(w.row, w.clock.Floor)
    ensures var now := w.clock.Floor;
      var tasks := if course.Unsound? || course.CreateFails? then w.tasks else WithTask(w.tasks, newId);
      var row := match course
        case Sound => Row(None, w.row.due, false, Some(tasks[0]))
        case CreateFails => Row(None, Some(now + p.retryDelay), false, None)
        case ShowFails => Row(None, Some(now + p.retryDelay), false, None)
        case _ => Row(None, w.row.due, true, None);
      Delivered(p, w, i, newId, course) == World(w.clock, row, w.procs[i := Idle], tasks, w.begun || !course.Unsound?)
  {
    var claimed := Happen(p, w, Claim(i, !course.Unsound?));
    assert claimed.procs == w.procs[i := if course.Unsound? then Failing else Creating(w.clock + p.timeout as real)];
    var done := Delivered(p, w, i, newId, course);
    assert done.procs == w.procs[i := Idle];
  }

  /** A failed call is not tried again within the second. */
  lemma RetryWaits(p: Policy, w: World, i: nat, newId: TaskId, course: Course, j: nat)
    requires p.ValidFor() && ProcOf(w, i) == Idle && Claimable(w.row, w.clock.Floor) && (course.CreateFails? || course.ShowFails?)
    ensures var done := Delivered(p, w, i, newId, course); Happen(p, done, Claim(j, true)) == done
  {
    DeliveryLeaves(p, w, i, newId, course);
    hide Delivered;
    OnlyClaimableIsClaimed(p, Delivered(p, w, i, newId, course), j, true);
  }

  /** A worker whose lease has ended, been taken over or been given up records nothing. */
  lemma LateRecordIsRefused(p: Policy, w: World, i: nat)
    requires w.row.lease == None || w.row.lease.value.0 != i || w.row.lease.value.1 <= w.clock.Floor || w.row.task.Some?
    ensures Happen(p, w, Record(i)).row == w.row
  {
  }

  /** A create that was sent may take effect later, once: the task is there then, and the same one from then on. */
  lemma LateCreateTakesEffect(p: Policy, w: World, newId: TaskId)
    ensures Happen(p, w, Lands(newId)) == if w.begun && w.tasks == [] then w.(tasks := [newId]) else w
  {
  }
}
