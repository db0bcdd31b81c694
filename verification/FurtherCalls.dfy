/**
  When a reservation can still see another call. Authorization is checked before
  the row is read, so a process may act on one that has since been withdrawn;
  this is said exactly, with the runs in which it happens and the discipline
  under which it does not.
 */
module FurtherCalls {
  import opened PaidCalls

  // ----- When a further call is still possible -----

  /** The process has its authorization behind it, and the row does not stop it. */
  predicate Stale(row: Row, p: Proc) {
    || p.Launching?
    || (row.RowRejected? && (p.Authorized? || p.RetryClaiming?))
    || (row.NoRow? && (p.Authorized? || p.Inserting?))
  }

  predicate Claimable(row: Row) {
    row.NoRow? || row.RowRejected?
  }

  /** A new request is granted, at least once it is due and within budget. */
  predicate Grants(reservation: Reservation) {
    reservation != UnknownOutcome && reservation != ProviderRejected(false)
  }

  /** The process's call may yet be refused, or was, and the refusal can be recorded. */
  predicate MayBeRefused(reservation: Reservation, row: Row, p: Proc) {
    && (p.Calling? || p.Rejecting?) && row.RowInFlight?
    && Grants(reservation) && reservation != Completed
  }

  ghost predicate MayCallAgain(w: World) {
    || (exists i :: i in w.procs && Stale(w.row, w.procs[i]))
    || (Grants(w.reservation) && Claimable(w.row))
    || (exists i :: i in w.procs && MayBeRefused(w.reservation, w.row, w.procs[i]))
  }

  lemma NoCallStep(w: World, p: Proc, outcome: Outcome)
    requires !Stale(w.row, p) && !MayBeRefused(w.reservation, w.row, p)
    requires Claimable(w.row) ==> !Grants(w.reservation) && !Holds(p)
    ensures var (w', p') := Step(w, p, outcome);
      && |w'.calls| == |w.calls| && w'.procs == w.procs
      && !Stale(w'.row, p') && !MayBeRefused(w'.reservation, w'.row, p')
      && (w'.row == w.row || !(Claimable(w'.row) || w'.row.RowInFlight?))
      && (w'.reservation == w.reservation || w'.reservation == UnknownOutcome || w'.reservation == Completed)
      && (Claimable(w'.row) ==> w'.reservation == w.reservation)
  {
  }

  /** Once a further call is impossible it stays impossible, and no event places one. */
  lemma NoCallEvent(w: World, e: Event)
    requires Inv(w) && !MayCallAgain(w)
    ensures !MayCallAgain(Happen(w, e)) && |Happen(w, e).calls| == |w.calls|
  {
    if e.Continue? {
      NoCallStep(w, ProcOf(w, e.i), e.outcome);
      hide Step;
    }
  }

  lemma {:induction false} NoFurtherCall(w: World, events: seq<Event>)
    requires Inv(w) && !MayCallAgain(w)
    ensures !MayCallAgain(After(w, events)) && |After(w, events).calls| == |w.calls|
    decreases |events|
  {
    if events != [] {
      var front := events[..|events| - 1];
      NoFurtherCall(w, front);
      AfterKeeps(w, front);
      NoCallEvent(After(w, front), events[|events| - 1]);
    }
  }

  /** At most three steps take a stale process to its call. */
  lemma {:induction false} StaleCalls(from: World, w: World, i: nat)
    requires Leads(from, w) && i in w.procs && Stale(w.row, w.procs[i])
    ensures exists w' :: Leads(from, w') && |w'.calls| > |w.calls|
    decreases if w.procs[i].Authorized? then 2 else if w.procs[i].Launching? then 0 else 1
  {
    var w' := Happen(w, Continue(i, Fails));
    Then(from, w, Continue(i, Fails));
    if !w.procs[i].Launching? {
      StaleCalls(from, w', i);
    }
  }

  lemma GrantedCalls(from: World, w: World, i: nat)
    requires Leads(from, w) && Grants(w.reservation) && Claimable(w.row)
    ensures exists w' :: Leads(from, w') && |w'.calls| > |w.calls|
  {
    Then(from, w, Begin(i, true, true));
    StaleCalls(from, Happen(w, Begin(i, true, true)), i);
  }

  /** A second process is authorized, the refusal is recorded, and the second claims the row. */
  lemma RefusedCalls(from: World, w: World, i: nat, j: nat)
    requires Leads(from, w) && i in w.procs && j != i && w.procs[i].Rejecting?
    requires MayBeRefused(w.reservation, w.row, w.procs[i])
    ensures exists w' :: Leads(from, w') && |w'.calls| > |w.calls|
  {
    var w1 := Happen(w, Begin(j, true, true));
    var w2 := Happen(w1, Continue(i, Fails));
    Then(from, w, Begin(j, true, true));
    Then(from, w1, Continue(i, Fails));
    assert w2.row == RowRejected && w2.procs[j] == Authorized;
    StaleCalls(from, w2, j);
  }

  lemma CalledCalls(from: World, w: World, i: nat)
    requires Leads(from, w) && i in w.procs && w.calls != []
    requires MayBeRefused(w.reservation, w.row, w.procs[i])
    ensures exists w' :: Leads(from, w') && |w'.calls| > |w.calls|
  {
    if w.procs[i].Calling? {
      Then(from, w, Continue(i, Refuses(true)));
      RefusedCalls(from, Happen(w, Continue(i, Refuses(true))), i, i + 1);
    } else {
      RefusedCalls(from, w, i, i + 1);
    }
  }

  /**
    Exactly when a reservation can see another call, in every state it can get
    into: a process is stale, or a request would be granted and find the row
    free, or a call under way may be refused and leave it free.
   */
  lemma FurtherCallIff(w: World)
    requires Reachable(w)
    ensures (exists w' :: Leads(w, w') && |w'.calls| > |w.calls|) <==> MayCallAgain(w)
  {
    ReachableKeeps(w);
    if w' :| Leads(w, w') && |w'.calls| > |w.calls| {
      var events :| w' == After(w, events);
      if !MayCallAgain(w) {
        NoFurtherCall(w, events);
      }
    }
    if MayCallAgain(w) {
      FurtherCallFollows(w);
    }
  }

  lemma FurtherCallFollows(w: World)
    requires Inv(w) && MayCallAgain(w)
    ensures exists w' :: Leads(w, w') && |w'.calls| > |w.calls|
  {
    assert w == After(w, []);
    if i :| i in w.procs && Stale(w.row, w.procs[i]) {
      StaleCalls(w, w, i);
    } else if i :| i in w.procs && MayBeRefused(w.reservation, w.row, w.procs[i]) {
      assert HolderOk(w, w.procs[i]);
      CalledCalls(w, w, i);
    } else {
      GrantedCalls(w, w, 0);
    }
  }

  /** In particular, what was refused for good or has an unknown outcome is called again exactly by a stale process. */
  lemma ClosedReservationIff(w: World)
    requires Reachable(w) && (w.reservation == ProviderRejected(false) || w.reservation == UnknownOutcome)
    ensures (exists w' :: Leads(w, w') && |w'.calls| > |w.calls|) <==>
      exists i :: i in w.procs && Stale(w.row, w.procs[i])
  {
    FurtherCallIff(w);
  }

  // ----- Runs in which it happens -----

  /**
    Authorization is checked before the row is read. A process authorized while
    another's call is under way may read the row after that call was refused for
    good, and then sends the request again although no retry was authorized.
   */
  lemma StaleAuthorizationCallsAgain()
    ensures exists w, i ::
      Reachable(w) && w.reservation == ProviderRejected(false) && ProcOf(w, i) == Calling && |w.calls| == 2
  {
    var claimed := ClaimedWhileAuthorized();
    var stale := RefusedWhileAuthorized(claimed);
    var w := StaleProcessCalls(stale);
  }

  /** Two processes are authorized and the first claims the row. */
  lemma ClaimedWhileAuthorized() returns (w: World)
    ensures Reachable(w)
    ensures w == World(InFlight, RowInFlight, [], map[0 := Launching, 1 := Authorized], {})
  {
    var no := Refuses(false);
    w := Fresh;
    assert w == After(Fresh, []);
    Then(Fresh, w, Begin(0, true, true));
    w := Happen(w, Begin(0, true, true));
    Then(Fresh, w, Begin(1, true, true));
    w := Happen(w, Begin(1, true, true));
    assert w == World(InFlight, NoRow, [], map[0 := Authorized, 1 := Authorized], {});
    Then(Fresh, w, Continue(0, no));
    w := Happen(w, Continue(0, no));
    assert w == World(InFlight, NoRow, [], map[0 := Inserting, 1 := Authorized], {});
    Then(Fresh, w, Continue(0, no));
    w := Happen(w, Continue(0, no));
  }

  /** The first places its call, which is refused for good. */
  lemma RefusedWhileAuthorized(claimed: World) returns (w: World)
    requires Reachable(claimed)
    requires claimed == World(InFlight, RowInFlight, [], map[0 := Launching, 1 := Authorized], {})
    ensures Reachable(w)
    ensures w == World(ProviderRejected(false), RowRejected, [Refused], map[0 := Raised, 1 := Authorized], {})
  {
    hide Leads;
    var no := Refuses(false);
    w := claimed;
    Then(Fresh, w, Continue(0, no));
    w := Happen(w, Continue(0, no));
    assert w == World(InFlight, RowInFlight, [Pending], map[0 := Calling, 1 := Authorized], {});
    Then(Fresh, w, Continue(0, no));
    w := Happen(w, Continue(0, no));
    assert w == World(InFlight, RowInFlight, [Refused], map[0 := Rejecting(false), 1 := Authorized], {});
    Then(Fresh, w, Continue(0, no));
    w := Happen(w, Continue(0, no));
  }

  /** The second process now reads the row, claims it, and calls. */
  lemma StaleProcessCalls(stale: World) returns (w: World)
    requires Reachable(stale)
    requires stale == World(ProviderRejected(false), RowRejected, [Refused], map[0 := Raised, 1 := Authorized], {})
    ensures Reachable(w)
    ensures w.reservation == ProviderRejected(false) && ProcOf(w, 1) == Calling && |w.calls| == 2
  {
    var no := Refuses(false);
    w := stale;
    Then(Fresh, w, Continue(1, no));
    w := Happen(w, Continue(1, no));
    assert w == World(ProviderRejected(false), RowRejected, [Refused], map[0 := Raised, 1 := RetryClaiming], {});
    Then(Fresh, w, Continue(1, no));
    w := Happen(w, Continue(1, no));
    assert w == World(ProviderRejected(false), RowInFlight, [Refused], map[0 := Raised, 1 := Launching], {});
    Then(Fresh, w, Continue(1, no));
    w := Happen(w, Continue(1, no));
  }

  /**
    The other way round: a process that finds the row claimed takes the call for
    lost and closes the reservation, and only then does the claimant call.
   */
  lemma DisownedClaimStillCalls()
    ensures exists w, i ::
      Reachable(w) && w.reservation == UnknownOutcome && ProcOf(w, i) == Calling && w.calls == [Pending]
  {
    hide Leads;
    var no := Refuses(false);
    var w := ClaimedWhileAuthorized();
    Then(Fresh, w, Continue(1, no));
    w := Happen(w, Continue(1, no));
    assert w == World(InFlight, RowInFlight, [], map[0 := Launching, 1 := Disowning], {});
    Then(Fresh, w, Continue(1, no));
    w := Happen(w, Continue(1, no));
    assert w == World(UnknownOutcome, RowInFlight, [], map[0 := Launching, 1 := DisowningRow], {});
    Then(Fresh, w, Continue(0, no));
    w := Happen(w, Continue(0, no));
    assert ProcOf(w, 0) == Calling;
  }

  // ----- A discipline under which it does not -----

  /** Requests one after another: none begins while another is running. */
  ghost predicate InTurn(w: World, events: seq<Event>)
    decreases |events|
  {
    events != [] ==>
      var front := events[..|events| - 1];
      InTurn(w, front)
      && (events[|events| - 1].Begin? ==> forall j :: j in After(w, front).procs ==> Resting(After(w, front).procs[j]))
  }

  /** A process between authorization and the end of its call, and the reservation it works under. */
  predicate UnderReservation(w: World, p: Proc) {
    && (p.Authorized? ==> w.reservation == InFlight || (w.reservation == Completed && !w.row.NoRow? && !w.row.RowRejected?))
    && (p.RetryClaiming? || p.Inserting? || p.Launching? || p.Calling? || p.Answering? || p.Rejecting? || p.Doubting? ==> w.reservation == InFlight)
    && (Holds(p) || p.Disowning? || p.DisowningRow? ==> !w.row.NoRow? && !w.row.RowRejected?)
    && (p.Inserting? ==> w.row.NoRow?)
    && (p.RetryClaiming? ==> w.row.RowRejected?)
  }

  ghost predicate OneAtATime(w: World) {
    && (forall i, j :: i in w.procs && j in w.procs && i != j && !Resting(w.procs[i]) ==> Resting(w.procs[j]))
    && (forall i :: i in w.procs ==> UnderReservation(w, w.procs[i]))
    && (w.row.RowRejected? ==> w.reservation.ProviderRejected? || w.reservation == InFlight)
    && (w.row.NoRow? ==> w.reservation == Unreserved || w.reservation == InFlight)
  }

  /** While one process works the others rest, so only what it is left with has to be looked at. */
  lemma InTurnWork(w: World, p: Proc, outcome: Outcome)
    requires UnderReservation(w, p)
    requires w.row.RowRejected? ==> w.reservation.ProviderRejected? || w.reservation == InFlight
    requires w.row.NoRow? ==> w.reservation == Unreserved || w.reservation == InFlight
    ensures var (w', p') := Step(w, p, outcome);
      && UnderReservation(w', p')
      && w'.procs == w.procs
      && (Resting(p) ==> w' == w && p' == p)
      && (w'.row.RowRejected? ==> w'.reservation.ProviderRejected? || w'.reservation == InFlight)
      && (w'.row.NoRow? ==> w'.reservation == Unreserved || w'.reservation == InFlight)
  {
  }

  lemma InTurnContinueKeeps(w: World, i: nat, outcome: Outcome)
    requires OneAtATime(w)
    ensures OneAtATime(Happen(w, Continue(i, outcome)))
  {
    assert UnderReservation(w, ProcOf(w, i));
    InTurnWork(w, ProcOf(w, i), outcome);
    hide Step;
  }

  lemma InTurnStepKeeps(w: World, e: Event)
    requires OneAtATime(w)
    requires e.Begin? ==> forall j :: j in w.procs ==> Resting(w.procs[j])
    ensures OneAtATime(Happen(w, e))
  {
    match e
    case Continue(i, outcome) => InTurnContinueKeeps(w, i, outcome);
    case Begin(_, _, _) =>
    case Crash(_) =>
  }

  lemma {:induction false} InTurnKeeps(events: seq<Event>)
    requires InTurn(Fresh, events)
    ensures OneAtATime(After(Fresh, events))
    decreases |events|
  {
    if events != [] {
      InTurnKeeps(events[..|events| - 1]);
      InTurnStepKeeps(After(Fresh, events[..|events| - 1]), events[|events| - 1]);
    }
  }

  /** When requests do not overlap, every call is made under a reservation in flight. */
  lemma CallsAreAuthorizedInTurn(events: seq<Event>, i: nat)
    requires InTurn(Fresh, events)
    requires ProcOf(After(Fresh, events), i).Launching? || ProcOf(After(Fresh, events), i).Calling?
    ensures After(Fresh, events).reservation == InFlight
  {
    InTurnKeeps(events);
    assert UnderReservation(After(Fresh, events), After(Fresh, events).procs[i]);
  }
}
