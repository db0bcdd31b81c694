/**
  CommentDeliveryWorker.deliver_one for one comment: any number of workers claim
  its row, look for its marker, deliver it and record what became of it, in real
  time and killed anywhere. A worker cuts its own delivery off at the timeout;
  one whose worker has died goes on, and nothing but the time it lingers bounds
  when it lands. The lookup is faithful and the payload carries the marker.
 */
module CommentDelivery {
  import opened Lease

  /** linger is how long after its start a delivery may land when its worker is dead. */
  datatype Policy = Policy(lease: int, timeout: real, linger: real, maxAttempts: int, baseDelay: int, maxDelay: int) {
    /** What the policy itself checks, a timeout that is one, and deliveries that outlive their workers. */
    predicate Valid() {
      lease >= 1 && maxAttempts >= 1 && 0 <= baseDelay <= maxDelay && 0.0 < timeout <= linger
    }
  }

  datatype Row = Pending | Delivering(owner: nat, expires: int) | Retryable(due: int) | Delivered | Failed

  datatype Verdict = MarkDelivered | MarkRetryable(due: int) | MarkFailed

  datatype Proc =
    | Idle
    | Looking(claimed: int, attempt: nat, deadline: real)
    | Sending(claimed: int, attempt: nat, call: nat, deadline: real)
    | Marking(claimed: int, verdict: Verdict)

  /** flight holds the deliveries under way with the time they began, landed those the remote has accepted. */
  datatype World = World(clock: real, row: Row, attempts: nat, procs: map<nat, Proc>, flight: map<nat, real>, landed: set<nat>, nextCall: nat)

  datatype Outcome = Succeeds | Ambiguous | Errs

  datatype Event =
    | Pass(seconds: real)
    | Claim(i: nat)
    | Lookup(i: nat, available: bool)
    | Land(call: nat)
    | Lapse(call: nat)
    | Return(i: nat, outcome: Outcome)
    | Mark(i: nat)
    | Crash(i: nat)

  const Fresh := World(0.0, Pending, 0, map[], map[], {}, 0)

  function ProcOf(w: World, i: nat): Proc {
    if i in w.procs then w.procs[i] else Idle
  }

  function Pow2(n: nat): (p: nat)
    ensures p >= 1
  {
    if n == 0 then 1 else 2 * Pow2(n - 1)
  }

  /** The wait after the nth attempt failed. */
  function RetryDelay(p: Policy, n: nat): int
    requires n >= 1
  {
    if p.baseDelay * Pow2(n - 1) < p.maxDelay then p.baseDelay * Pow2(n - 1) else p.maxDelay
  }

  /** recover_expired_comment_leases. */
  function Recovered(row: Row, now: int): Row {
    if row.Delivering? && row.expires <= now then Retryable(now) else row
  }

  predicate Due(row: Row, now: int) {
    row.Pending? || (row.Retryable? && row.due <= now)
  }

  function Claimed(p: Policy, w: World, i: nat): World {
    var now := w.clock.Floor;
    var row := Recovered(w.row, now);
    if Due(row, now) then
      w.(row := Delivering(i, now + p.lease), attempts := w.attempts + 1, procs := w.procs[i := Looking(now, w.attempts + 1, w.clock + p.timeout)])
    else w.(row := row)
  }

  function LookedUp(p: Policy, w: World, i: nat, claimed: int, attempt: nat, available: bool): World {
    if !available then
      var verdict := if attempt >= p.maxAttempts then MarkFailed else MarkRetryable(claimed + p.baseDelay);
      w.(procs := w.procs[i := Marking(claimed, verdict)])
    else if w.landed != {} then w.(procs := w.procs[i := Marking(claimed, MarkDelivered)])
    else
      w.(procs := w.procs[i := Sending(claimed, attempt, w.nextCall, w.clock + p.timeout)], flight := w.flight[w.nextCall := w.clock],
         nextCall := w.nextCall + 1)
  }

  function Landed(w: World, call: nat): World {
    if call in w.flight then w.(flight := w.flight - {call}, landed := w.landed + {call}) else w
  }

  function Lapsed(w: World, call: nat): World {
    w.(flight := w.flight - {call})
  }

  function Returned(p: Policy, w: World, i: nat, proc: Proc, outcome: Outcome): World
    requires proc.Sending?
  {
    match outcome
    case Succeeds =>
      var w1 := Landed(w, proc.call);
      if proc.call in w1.landed then w1.(procs := w1.procs[i := Marking(proc.claimed, MarkDelivered)]) else w
    case Ambiguous =>
      var w1 := Lapsed(w, proc.call);
      w1.(procs := w1.procs[i := Marking(proc.claimed, MarkRetryable(proc.claimed + p.baseDelay))])
    case Errs =>
      var w1 := Lapsed(w, proc.call);
      var verdict := if 1 <= proc.attempt < p.maxAttempts then MarkRetryable(proc.claimed + RetryDelay(p, proc.attempt)) else MarkFailed;
      w1.(procs := w1.procs[i := Marking(proc.claimed, verdict)])
  }

  /** Only a row still leased to the worker is changed. */
  function Marked(row: Row, i: nat, claimed: int, verdict: Verdict): Row {
    if row.Delivering? && row.owner == i && row.expires > claimed then
      match verdict
      case MarkDelivered => Delivered
      case MarkRetryable(due) => Retryable(due)
      case MarkFailed => Failed
    else row
  }

  /** Calls of living workers end by their deadlines, and no delivery lingers for longer than that. */
  predicate MayPass(p: Policy, w: World, seconds: real) {
    && seconds >= 0.0
    && (forall i :: i in w.procs && w.procs[i].Looking? ==> w.clock + seconds <= w.procs[i].deadline)
    && (forall i :: i in w.procs && w.procs[i].Sending? ==> w.clock + seconds <= w.procs[i].deadline)
    && (forall c :: c in w.flight ==> w.clock + seconds <= w.flight[c] + p.linger)
  }

  function Happen(p: Policy, w: World, e: Event): World {
    match e
    case Pass(seconds) => if MayPass(p, w, seconds) then w.(clock := w.clock + seconds) else w
    case Claim(i) => if ProcOf(w, i).Idle? then Claimed(p, w, i) else w
    case Lookup(i, available) =>
      if ProcOf(w, i).Looking? then LookedUp(p, w, i, ProcOf(w, i).claimed, ProcOf(w, i).attempt, available) else w
    case Land(call) => Landed(w, call)
    case Lapse(call) => Lapsed(w, call)
    case Return(i, outcome) => if ProcOf(w, i).Sending? then Returned(p, w, i, ProcOf(w, i), outcome) else w
    case Mark(i) =>
      if ProcOf(w, i).Marking?
      then w.(row := Marked(w.row, i, ProcOf(w, i).claimed, ProcOf(w, i).verdict), procs := w.procs[i := Idle])
      else w
    case Crash(i) => w.(procs := w.procs[i := Idle])
  }

  function After(p: Policy, w: World, events: seq<Event>): World {
    if events == [] then w else Happen(p, After(p, w, events[..|events| - 1]), events[|events| - 1])
  }

  // ----- One lease at a time -----

  ghost predicate ProcOk(p: Policy, w: World, i: nat, proc: Proc) {
    match proc
    case Looking(claimed, _, deadline) =>
      w.row == Delivering(i, claimed + p.lease) && w.clock <= deadline && deadline + p.linger < (claimed + p.lease) as real && w.flight == map[]
    case Sending(claimed, _, call, deadline) =>
      && w.row == Delivering(i, claimed + p.lease) && w.clock <= deadline < (claimed + p.lease) as real
      && (forall c :: c in w.flight ==> c == call) && (forall c :: c in w.landed ==> c == call)
    case Marking(_, verdict) => (verdict == MarkDelivered ==> w.landed != {}) && (w.row.Delivering? && w.row.owner == i ==> w.flight == map[])
    case Idle => true
  }

  ghost predicate FlightOk(p: Policy, w: World) {
    && (forall c :: c in w.flight ==> w.clock <= w.flight[c] + p.linger && w.row.Delivering? && w.flight[c] + p.linger < w.row.expires as real)
    && (forall c, d :: c in w.flight && d in w.flight ==> c == d)
    && (w.flight != map[] ==> w.landed == {})
  }

  ghost predicate Inv(p: Policy, w: World) {
    && (forall i :: i in w.procs ==> ProcOk(p, w, i, w.procs[i]))
    && FlightOk(p, w)
    && (forall c, d :: c in w.landed && d in w.landed ==> c == d)
    && (w.row.Delivered? ==> w.landed != {})
  }

  predicate LongEnough(p: Policy) {
    p.lease as real >= p.timeout + p.linger + 1.0
  }

  lemma PassKeeps(p: Policy, w: World, seconds: real)
    requires Inv(p, w)
    ensures Inv(p, Happen(p, w, Pass(seconds)))
  {
    var w' := Happen(p, w, Pass(seconds));
    forall i | i in w'.procs ensures ProcOk(p, w', i, w'.procs[i]) {
      assert ProcOk(p, w, i, w.procs[i]);
    }
  }

  /** While a worker calls, or a call is under way, the lease has not run out. */
  lemma NothingRunsWhenDue(p: Policy, w: World)
    requires Inv(p, w) && p.Valid() && Due(Recovered(w.row, w.clock.Floor), w.clock.Floor)
    ensures w.flight == map[] && forall i :: i in w.procs ==> !w.procs[i].Looking? && !w.procs[i].Sending?
  {
    forall i | i in w.procs ensures !w.procs[i].Looking? && !w.procs[i].Sending? {
      assert ProcOk(p, w, i, w.procs[i]);
    }
  }

  lemma ClaimKeeps(p: Policy, w: World, i: nat)
    requires Inv(p, w) && p.Valid() && LongEnough(p)
    ensures Inv(p, Happen(p, w, Claim(i)))
  {
    var w' := Happen(p, w, Claim(i));
    var now := w.clock.Floor;
    LeaseCovers(p.lease, p.timeout + p.linger);
    if Due(Recovered(w.row, now), now) {
      NothingRunsWhenDue(p, w);
    }
    forall j | j in w'.procs ensures ProcOk(p, w', j, w'.procs[j]) {
      if j in w.procs {
        assert ProcOk(p, w, j, w.procs[j]);
      }
    }
  }

  lemma LookupKeeps(p: Policy, w: World, i: nat, available: bool)
    requires Inv(p, w) && p.Valid()
    ensures Inv(p, Happen(p, w, Lookup(i, available)))
  {
    var w' := Happen(p, w, Lookup(i, available));
    if ProcOf(w, i).Looking? {
      assert ProcOk(p, w, i, w.procs[i]);
    }
    forall j | j in w'.procs ensures ProcOk(p, w', j, w'.procs[j]) {
      if j in w.procs {
        assert ProcOk(p, w, j, w.procs[j]);
      }
    }
  }

  lemma LandKeeps(p: Policy, w: World, call: nat)
    requires Inv(p, w)
    ensures Inv(p, Landed(w, call)) && Inv(p, Lapsed(w, call))
  {
    forall j | j in w.procs ensures ProcOk(p, Landed(w, call), j, w.procs[j]) && ProcOk(p, Lapsed(w, call), j, w.procs[j]) {
      assert ProcOk(p, w, j, w.procs[j]);
    }
  }

  lemma ReturnKeeps(p: Policy, w: World, i: nat, outcome: Outcome)
    requires Inv(p, w)
    ensures Inv(p, Happen(p, w, Return(i, outcome)))
  {
    if ProcOf(w, i).Sending? {
      var call := ProcOf(w, i).call;
      LandKeeps(p, w, call);
      var w1 := if outcome.Succeeds? then Landed(w, call) else Lapsed(w, call);
      var w' := Happen(p, w, Return(i, outcome));
      forall j | j in w'.procs ensures ProcOk(p, w', j, w'.procs[j]) {
        assert ProcOk(p, w1, j, w1.procs[j]) && ProcOk(p, w, j, w.procs[j]);
      }
    }
  }

  lemma MarkKeeps(p: Policy, w: World, i: nat)
    requires Inv(p, w)
    ensures Inv(p, Happen(p, w, Mark(i)))
  {
    var w' := Happen(p, w, Mark(i));
    if ProcOf(w, i).Marking? {
      assert ProcOk(p, w, i, w.procs[i]);
    }
    forall j | j in w'.procs ensures ProcOk(p, w', j, w'.procs[j]) {
      assert j in w.procs ==> ProcOk(p, w, j, w.procs[j]);
    }
  }

  lemma HappenKeeps(p: Policy, w: World, e: Event)
    requires Inv(p, w) && p.Valid() && LongEnough(p)
    ensures Inv(p, Happen(p, w, e))
  {
    match e
    case Pass(seconds) => PassKeeps(p, w, seconds);
    case Claim(i) => ClaimKeeps(p, w, i);
    case Lookup(i, available) => LookupKeeps(p, w, i, available);
    case Land(call) => LandKeeps(p, w, call);
    case Lapse(call) => LandKeeps(p, w, call);
    case Return(i, outcome) => ReturnKeeps(p, w, i, outcome);
    case Mark(i) => MarkKeeps(p, w, i);
    case Crash(i) =>
      forall j | j in w.procs ensures ProcOk(p, w, j, w.procs[j]) {
      }
  }

  lemma {:induction false} AfterKeeps(p: Policy, events: seq<Event>)
    requires p.Valid() && LongEnough(p)
    ensures Inv(p, After(p, Fresh, events))
    decreases |events|
  {
    if events != [] {
      AfterKeeps(p, events[..|events| - 1]);
      HappenKeeps(p, After(p, Fresh, events[..|events| - 1]), events[|events| - 1]);
    }
  }

  lemma OneAtMost(landed: set<nat>)
    requires forall c, d :: c in landed && d in landed ==> c == d
    ensures |landed| <= 1
  {
    if landed != {} {
      var c :| c in landed;
      assert landed == {c};
    }
  }

  /** However workers interleave and die: with a long enough lease the remote never holds two copies, and a row that says delivered has exactly one. */
  lemma NeverTwoCopies(p: Policy, events: seq<Event>)
    requires p.Valid() && LongEnough(p)
    ensures var w := After(p, Fresh, events); |w.landed| <= 1 && (w.row == Delivered ==> |w.landed| == 1)
  {
    AfterKeeps(p, events);
    OneAtMost(After(p, Fresh, events).landed);
  }

  // ----- A lease too short -----

  lemma AfterThen(p: Policy, events: seq<Event>, e: Event)
    ensures After(p, Fresh, events + [e]) == Happen(p, After(p, Fresh, events), e)
  {
    assert (events + [e])[..|events|] == events;
  }

  /** Late in a second a worker claims; its delivery begins as late as it can. */
  lemma SlowDelivery(p: Policy, read: real) returns (events: seq<Event>)
    requires p.Valid() && 0.0 <= read < 1.0 && read.Floor == 0
    ensures After(p, Fresh, events) ==
      World(read + p.timeout, Delivering(0, p.lease), 1, map[0 := Sending(0, 1, 0, read + 2.0 * p.timeout)], map[0 := read + p.timeout], {}, 1)
    ensures NobodyDies(events)
  {
    events := [Pass(read)];
    AfterThen(p, [], Pass(read));
    assert [] + [Pass(read)] == [Pass(read)];
    assert After(p, Fresh, events) == World(read, Pending, 0, map[], map[], {}, 0);
    AfterThen(p, events, Claim(0));
    events := events + [Claim(0)];
    assert After(p, Fresh, events) == World(read, Delivering(0, p.lease), 1, map[0 := Looking(0, 1, read + p.timeout)], map[], {}, 0);
    AfterThen(p, events, Pass(p.timeout));
    events := events + [Pass(p.timeout)];
    assert After(p, Fresh, events) == World(read + p.timeout, Delivering(0, p.lease), 1, map[0 := Looking(0, 1, read + p.timeout)], map[], {}, 0);
    AfterThen(p, events, Lookup(0, true));
    events := events + [Lookup(0, true)];
  }

  /** What the first worker may be when the lease ends: gone, or still within its timeout. */
  predicate Overtaken(p: Policy, procs: map<nat, Proc>) {
    forall i :: i in procs ==> i == 0 && !procs[i].Looking? && (procs[i].Sending? ==> procs[i].deadline >= p.lease as real)
  }

  /** A second worker claims when the lease has ended. */
  lemma SecondClaim(p: Policy, began: real, procs: map<nat, Proc>, slow: seq<Event>) returns (events: seq<Event>)
    requires p.Valid() && 0.0 <= began && began + p.linger >= p.lease as real && Overtaken(p, procs)
    requires After(p, Fresh, slow) == World(began, Delivering(0, p.lease), 1, procs, map[0 := began], {}, 1)
    ensures var w := After(p, Fresh, events); ProcOf(w, 1).Looking? && w.flight == map[0 := began] && w.landed == {} && w.nextCall == 1
    ensures NobodyDies(slow) ==> NobodyDies(events)
  {
    var wait := if p.lease as real > began then p.lease as real - began else 0.0;
    AfterThen(p, slow, Pass(wait));
    events := slow + [Pass(wait)];
    var w := After(p, Fresh, events);
    assert w.clock >= p.lease as real && w.row == Delivering(0, p.lease);
    assert w.clock.Floor >= p.lease;
    AfterThen(p, events, Claim(1));
    events := events + [Claim(1)];
  }

  /** It finds no marker and delivers too; then both deliveries land. */
  lemma SecondDelivery(p: Policy, began: real, claimed: seq<Event>) returns (events: seq<Event>)
    requires var w := After(p, Fresh, claimed); ProcOf(w, 1).Looking? && w.flight == map[0 := began] && w.landed == {} && w.nextCall == 1
    ensures After(p, Fresh, events).landed == {0, 1}
    ensures NobodyDies(claimed) ==> NobodyDies(events)
  {
    AfterThen(p, claimed, Lookup(1, true));
    events := claimed + [Lookup(1, true)];
    var w := After(p, Fresh, events);
    assert 0 in w.flight && 1 in w.flight && w.landed == {};
    AfterThen(p, events, Land(1));
    events := events + [Land(1)];
    AfterThen(p, events, Land(0));
    events := events + [Land(0)];
  }

  /** With a shorter lease: the first worker dies while it delivers, and its delivery lands after the second. */
  lemma OrphanLandsLate(p: Policy) returns (events: seq<Event>)
    requires p.Valid() && !LongEnough(p)
    ensures After(p, Fresh, events).landed == {0, 1}
  {
    var read := LateRead(p.lease, p.timeout + p.linger);
    var slow := SlowDelivery(p, read);
    AfterThen(p, slow, Crash(0));
    events := SecondClaim(p, read + p.timeout, map[0 := Idle], slow + [Crash(0)]);
    events := SecondDelivery(p, read + p.timeout, events);
  }

  /**
    Over every run, the remote is spared a second copy exactly when the lease is
    a second longer than a lookup and the longest delivery that outlives its
    worker. The policy asks only for a lease of one second.
   */
  lemma NeverTwoIffLeaseLongEnough(p: Policy)
    requires p.Valid()
    ensures (forall events: seq<Event> :: |After(p, Fresh, events).landed| <= 1) <==> LongEnough(p)
  {
    if LongEnough(p) {
      forall events: seq<Event> ensures |After(p, Fresh, events).landed| <= 1 {
        NeverTwoCopies(p, events);
      }
    } else {
      var events := OrphanLandsLate(p);
      assert |After(p, Fresh, events).landed| == 2;
    }
  }

  /** Nothing in the code bounds how long an orphaned delivery lingers, and so no lease and no timeout is enough. */
  lemma NoLeaseOutlastsEveryOrphan(p: Policy)
    requires p.Valid()
    ensures exists linger :: p.(linger := linger).Valid() && !forall events: seq<Event> :: |After(p.(linger := linger), Fresh, events).landed| <= 1
  {
    var q := p.(linger := p.lease as real + p.linger);
    NeverTwoIffLeaseLongEnough(q);
    assert q.Valid() && !LongEnough(q);
  }

  // ----- Workers that do not die -----

  ghost predicate NobodyDies(events: seq<Event>) {
    forall k :: 0 <= k < |events| ==> !events[k].Crash?
  }

  /** Every delivery under way has its worker, who will cut it off. */
  ghost predicate Accompanied(p: Policy, w: World) {
    forall c :: c in w.flight ==> exists i :: IsSender(p, w, i, c)
  }

  ghost predicate IsSender(p: Policy, w: World, i: nat, c: nat) {
    i in w.procs && w.procs[i].Sending? && w.procs[i].call == c && c in w.flight && w.procs[i].deadline == w.flight[c] + p.timeout
  }

  ghost predicate CallsAreOld(w: World) {
    && (forall c :: c in w.flight ==> c < w.nextCall)
    && (forall i :: i in w.procs && w.procs[i].Sending? ==> w.procs[i].call < w.nextCall)
  }

  lemma LivingStayAccompanied(p: Policy, w: World, e: Event)
    requires Accompanied(p, w) && CallsAreOld(w) && !e.Crash?
    ensures Accompanied(p, Happen(p, w, e)) && CallsAreOld(Happen(p, w, e))
  {
    var w' := Happen(p, w, e);
    forall c | c in w'.flight ensures exists i :: IsSender(p, w', i, c) {
      if c in w.flight {
        var i :| IsSender(p, w, i, c);
        assert IsSender(p, w', i, c);
      } else {
        assert IsSender(p, w', e.i, c);
      }
    }
  }

  /** While workers live, deliveries end by the timeout however long they could linger. */
  lemma LivingIgnoreLinger(p: Policy, w: World, e: Event)
    requires p.Valid() && Accompanied(p, w)
    ensures Happen(p, w, e) == Happen(p.(linger := p.timeout), w, e)
  {
    if e.Pass? && MayPass(p, w, e.seconds) {
      forall c | c in w.flight ensures w.clock + e.seconds <= w.flight[c] + p.timeout {
        var i :| IsSender(p, w, i, c);
      }
    }
  }

  lemma {:induction false} LivingRun(p: Policy, events: seq<Event>)
    requires p.Valid() && NobodyDies(events)
    ensures After(p, Fresh, events) == After(p.(linger := p.timeout), Fresh, events)
    ensures Accompanied(p, After(p, Fresh, events)) && CallsAreOld(After(p, Fresh, events))
    decreases |events|
  {
    if events != [] {
      var front := events[..|events| - 1];
      LivingRun(p, front);
      LivingIgnoreLinger(p, After(p, Fresh, front), events[|events| - 1]);
      LivingStayAccompanied(p, After(p, Fresh, front), events[|events| - 1]);
    }
  }

  /** As long as no worker dies, a lease a second longer than two calls is enough, and nothing less is. */
  lemma NeverTwoWhileWorkersLive(p: Policy)
    requires p.Valid()
    ensures (forall events: seq<Event> :: NobodyDies(events) ==> |After(p, Fresh, events).landed| <= 1) <==> p.lease as real >= 2.0 * p.timeout + 1.0
  {
    if p.lease as real >= 2.0 * p.timeout + 1.0 {
      forall events: seq<Event> | NobodyDies(events) ensures |After(p, Fresh, events).landed| <= 1 {
        LivingRun(p, events);
        NeverTwoCopies(p.(linger := p.timeout), events);
      }
    } else {
      var read := LateRead(p.lease, 2.0 * p.timeout);
      var slow := SlowDelivery(p, read);
      var claimed := SecondClaim(p, read + p.timeout, map[0 := Sending(0, 1, 0, read + 2.0 * p.timeout)], slow);
      var events := SecondDelivery(p, read + p.timeout, claimed);
      assert |After(p, Fresh, events).landed| == 2;
    }
  }

  // ----- Waiting between attempts -----

  lemma {:induction false} PowersGrow(m: nat, n: nat)
    requires m <= n
    ensures Pow2(m) <= Pow2(n)
    decreases n
  {
    if m < n {
      PowersGrow(m, n - 1);
    }
  }

  /** The wait never shrinks, never passes the largest wait, and is the largest from then on once it gets there. */
  lemma DelayGrows(p: Policy, m: nat, n: nat)
    requires p.Valid() && 1 <= m <= n
    ensures p.baseDelay <= RetryDelay(p, m) <= RetryDelay(p, n) <= p.maxDelay
    ensures RetryDelay(p, m) == p.maxDelay ==> RetryDelay(p, n) == p.maxDelay
  {
    PowersGrow(m - 1, n - 1);
    Scales(p.baseDelay, 1, Pow2(m - 1));
    Scales(p.baseDelay, Pow2(m - 1), Pow2(n - 1));
  }

  lemma Scales(base: int, a: int, b: int)
    requires 0 <= base && a <= b
    ensures base * a <= base * b
  {
  }

  /** What a failed attempt waits for doubles from one to the next, from the smallest wait to the largest. */
  lemma DelayDoubles(p: Policy, n: nat)
    requires p.Valid() && n >= 1
    ensures RetryDelay(p, 1) == p.baseDelay
    ensures RetryDelay(p, n + 1) == if 2 * RetryDelay(p, n) < p.maxDelay then 2 * RetryDelay(p, n) else p.maxDelay
  {
    assert p.baseDelay * Pow2(n) == 2 * (p.baseDelay * Pow2(n - 1));
  }

  // ----- One worker left to itself -----

  /** A row nobody may claim is left alone, but for a lease that has run out. */
  lemma NotDueIsLeftAlone(p: Policy, w: World, i: nat)
    requires !Due(Recovered(w.row, w.clock.Floor), w.clock.Floor)
    ensures Happen(p, w, Claim(i)).procs == w.procs && Happen(p, w, Claim(i)).attempts == w.attempts
    ensures w.row.Delivering? ==> w.row.expires > w.clock.Floor && Happen(p, w, Claim(i)) == w
  {
  }

  /** How a claim, a lookup and, where nothing is found, a delivery end, all recorded at once. */
  datatype Attempt = LookupFails | Found | Delivers(outcome: Outcome)

  function Attempted(p: Policy, w: World, i: nat, attempt: Attempt): World {
    var claimed := Happen(p, w, Claim(i));
    var looked := Happen(p, claimed, Lookup(i, !attempt.LookupFails?));
    var called := if attempt.Delivers? then Happen(p, looked, Return(i, attempt.outcome)) else looked;
    Happen(p, called, Mark(i))
  }

  /**
    The whole of one attempt, for every way it can go: the row it leaves, and what
    has landed. A delivery is called only if the lookup found nothing; what cannot
    be looked up waits or is given up at the last attempt, what is in doubt waits,
    and an error waits longer each time until the attempts are used up.
   */
  lemma AttemptLeaves(p: Policy, w: World, i: nat, attempt: Attempt)
    requires p.Valid() && ProcOf(w, i) == Idle && Due(Recovered(w.row, w.clock.Floor), w.clock.Floor)
    requires w.nextCall !in w.flight && w.nextCall !in w.landed && (attempt.LookupFails? || (attempt.Found? <==> w.landed != {}))
    ensures var now, n := w.clock.Floor, w.attempts + 1;
      var row := match attempt
        case LookupFails => if n >= p.maxAttempts then Failed else Retryable(now + p.baseDelay)
        case Found => Delivered
        case Delivers(Succeeds) => Delivered
        case Delivers(Ambiguous) => Retryable(now + p.baseDelay)
        case Delivers(Errs) => if n < p.maxAttempts then Retryable(now + RetryDelay(p, n)) else Failed;
      Attempted(p, w, i, attempt) ==
        World(w.clock, row, n, w.procs[i := Idle], w.flight,
              if attempt == Delivers(Succeeds) then w.landed + {w.nextCall} else w.landed,
              if attempt.Delivers? then w.nextCall + 1 else w.nextCall)
  {
    hide RetryDelay;
    var claimed := Happen(p, w, Claim(i));
    assert claimed == World(w.clock, Delivering(i, w.clock.Floor + p.lease), w.attempts + 1,
                            w.procs[i := Looking(w.clock.Floor, w.attempts + 1, w.clock + p.timeout)], w.flight, w.landed, w.nextCall);
    var looked := Happen(p, claimed, Lookup(i, !attempt.LookupFails?));
    if attempt.Delivers? {
      DeliveryLeaves(p, claimed, i, w.clock.Floor, w.attempts + 1, attempt.outcome);
      assert claimed.procs[i := Idle] == w.procs[i := Idle];
    } else {
      assert looked.procs[i := Idle] == w.procs[i := Idle];
    }
  }

  lemma DeliveryLeaves(p: Policy, w: World, i: nat, now: int, n: nat, outcome: Outcome)
    requires p.Valid() && n >= 1 && i in w.procs && w.procs[i].Looking? && w.procs[i].claimed == now && w.procs[i].attempt == n
    requires w.row == Delivering(i, now + p.lease) && w.landed == {} && w.nextCall !in w.flight
    ensures var row := match outcome
        case Succeeds => Delivered
        case Ambiguous => Retryable(now + p.baseDelay)
        case Errs => if n < p.maxAttempts then Retryable(now + RetryDelay(p, n)) else Failed;
      Happen(p, Happen(p, Happen(p, w, Lookup(i, true)), Return(i, outcome)), Mark(i)) ==
        World(w.clock, row, w.attempts, w.procs[i := Idle], w.flight, if outcome.Succeeds? then {w.nextCall} else {}, w.nextCall + 1)
  {
    hide RetryDelay;
    var sent := Happen(p, w, Lookup(i, true));
    assert sent.flight == w.flight[w.nextCall := w.clock];
    assert sent.flight - {w.nextCall} == w.flight;
    var returned := Happen(p, sent, Return(i, outcome));
    assert returned.flight == w.flight;
    assert returned.procs[i := Idle] == w.procs[i := Idle];
  }

  /** Whatever happens, time does not run back, and what has landed stays. */
  lemma TimeAndCopiesOnlyGrow(p: Policy, w: World, e: Event)
    ensures Happen(p, w, e).clock >= w.clock && w.landed <= Happen(p, w, e).landed
  {
  }

  /** A worker left to itself whose delivery landed unrecorded finds the marker at the next claim and records it. */
  lemma LostDeliveryIsFound(p: Policy, w: World, i: nat)
    requires p.Valid() && ProcOf(w, i) == Idle && w.landed != {} && Due(Recovered(w.row, w.clock.Floor), w.clock.Floor)
    ensures var claimed := Happen(p, w, Claim(i));
      var found := Happen(p, claimed, Lookup(i, true));
      Happen(p, found, Mark(i)).row == Delivered && Happen(p, found, Mark(i)).flight == w.flight && Happen(p, found, Mark(i)).landed == w.landed
  {
    var claimed := Happen(p, w, Claim(i));
    assert ProcOf(claimed, i).Looking?;
    var found := Happen(p, claimed, Lookup(i, true));
    assert ProcOf(found, i) == Marking(w.clock.Floor, MarkDelivered);
  }
}
