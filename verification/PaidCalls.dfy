/**
  InjectedPaidModelAdapter.invoke with the governor behind it, for one
  reservation: any number of processes, each a series of database transactions
  around one call to the provider, interleaved in any way and killed anywhere.
 */
module PaidCalls {

  type Proposal = string

  /** The governor's reservation row. */
  datatype Reservation = Unreserved | InFlight | Completed | UnknownOutcome | ProviderRejected(retryable: bool)

  /** The model_calls row; its reservation id is unique. */
  datatype Row = NoRow | RowInFlight | RowRejected | RowUnknown | RowCompleted(response: Proposal)

  /** What became of one call to the provider; a caller killed during the call leaves it pending. */
  datatype Call = Pending | Answered(proposal: Proposal) | Refused | Ambiguous

  datatype Proc =
    | Idle
    | Authorized
    | RetryClaiming
    | Inserting
    | Disowning              // the row is somebody's in-flight call: mark the reservation unknown
    | DisowningRow           // then the row
    | Launching
    | Calling
    | Answering(proposal: Proposal)
    | Settling(proposal: Proposal)
    | Rejecting(retryable: bool)
    | Doubting
    | DoubtingRow
    | Returned(proposal: Proposal)
    | Raised

  datatype World = World(reservation: Reservation, row: Row, calls: seq<Call>, procs: map<nat, Proc>, results: set<Proposal>)

  /** What the provider does with a call. */
  datatype Outcome = Answers(proposal: Proposal) | Refuses(retryable: bool) | Fails

  datatype Event =
    | Begin(i: nat, due: bool, withinBudget: bool)
    | Continue(i: nat, outcome: Outcome)
    | Crash(i: nat)

  function ProcOf(w: World, i: nat): Proc {
    if i in w.procs then w.procs[i] else Idle
  }

  /** UsageGovernor.authorize. */
  function Authorize(reservation: Reservation, due: bool, withinBudget: bool): (Reservation, bool) {
    match reservation
    case Unreserved => if withinBudget then (InFlight, true) else (reservation, false)
    case InFlight => (reservation, true)
    case Completed => (reservation, true)
    case UnknownOutcome => (reservation, false)
    case ProviderRejected(retryable) =>
      if retryable && due && withinBudget then (InFlight, true) else (reservation, false)
  }

  /** governor.unknown and governor.complete refuse unless the reservation is in flight. */
  function Finish(w: World, status: Reservation, next: Proc): (World, Proc) {
    if w.reservation == InFlight then (w.(reservation := status), next) else (w, Raised)
  }

  /** An update by reservation id changes nothing while there is no row. */
  function SetRow(w: World, row: Row): World {
    if w.row == NoRow then w else w.(row := row)
  }

  function EndCall(w: World, call: Call): World
    requires w.calls != []
  {
    w.(calls := w.calls[|w.calls| - 1 := call])
  }

  function Step(w: World, p: Proc, outcome: Outcome): (World, Proc) {
    match p
    case Idle => (w, p)
    case Returned(_) => (w, p)
    case Raised => (w, p)
    case Authorized =>
      (match w.row
       case RowCompleted(response) => (w.(results := w.results + {response}), Returned(response))
       case RowRejected => (w, RetryClaiming)
       case RowInFlight => (w, Disowning)
       case RowUnknown => (w, Raised)
       case NoRow => (w, Inserting))
    case RetryClaiming => if w.row == RowRejected then (w.(row := RowInFlight), Launching) else (w, Raised)
    case Inserting => if w.row == NoRow then (w.(row := RowInFlight), Launching) else (w, Disowning)
    case Disowning => Finish(w, UnknownOutcome, DisowningRow)
    case DisowningRow => (SetRow(w, RowUnknown), Raised)
    case Launching => (w.(calls := w.calls + [Pending]), Calling)
    case Calling =>
      if w.calls == [] then (w, Raised) else
      (match outcome
       case Answers(proposal) => (EndCall(w, Answered(proposal)), Answering(proposal))
       case Refuses(retryable) => (EndCall(w, Refused), Rejecting(retryable))
       case Fails => (EndCall(w, Ambiguous), Doubting))
    case Answering(proposal) => Finish(w, Completed, Settling(proposal))
    case Settling(proposal) => (SetRow(w, RowCompleted(proposal)).(results := w.results + {proposal}), Returned(proposal))
    case Rejecting(retryable) =>
      if w.reservation == InFlight && w.row == RowInFlight
      then (w.(reservation := ProviderRejected(retryable), row := RowRejected), Raised)
      else (w, Raised)
    case Doubting => Finish(w, UnknownOutcome, DoubtingRow)
    case DoubtingRow => (SetRow(w, RowUnknown), Raised)
  }

  function Happen(w: World, e: Event): World {
    match e
    case Begin(i, due, withinBudget) =>
      var (reservation, granted) := Authorize(w.reservation, due, withinBudget);
      w.(reservation := reservation, procs := w.procs[i := if granted then Authorized else Raised])
    case Continue(i, outcome) =>
      var (w', p') := Step(w, ProcOf(w, i), outcome);
      w'.(procs := w'.procs[i := p'])
    case Crash(i) => w.(procs := w.procs[i := Idle])
  }

  function After(w: World, events: seq<Event>): World {
    if events == [] then w else Happen(After(w, events[..|events| - 1]), events[|events| - 1])
  }

  const Fresh := World(Unreserved, NoRow, [], map[], {})

  ghost predicate Leads(from: World, to: World) {
    exists events :: to == After(from, events)
  }

  ghost predicate Reachable(w: World) {
    Leads(Fresh, w)
  }

  // ----- The invariant -----

  /** The process has claimed the row and not yet given the claim up. */
  predicate Holds(p: Proc) {
    p.Launching? || p.Calling? || p.Answering? || p.Settling? || p.Rejecting? || p.Doubting? || p.DoubtingRow?
  }

  predicate Resting(p: Proc) {
    p.Idle? || p.Returned? || p.Raised?
  }

  predicate AllRefused(calls: seq<Call>) {
    forall k :: 0 <= k < |calls| ==> calls[k] == Refused
  }

  /** Every call but the newest was refused. */
  predicate OnlyLastMayDiffer(calls: seq<Call>) {
    forall k :: 0 <= k < |calls| - 1 ==> calls[k] == Refused
  }

  predicate LastIs(calls: seq<Call>, call: Call) {
    calls != [] && calls[|calls| - 1] == call
  }

  predicate HolderOk(w: World, p: Proc) {
    match p
    case Launching => AllRefused(w.calls)
    case Calling => LastIs(w.calls, Pending)
    case Answering(proposal) => LastIs(w.calls, Answered(proposal))
    case Settling(proposal) => LastIs(w.calls, Answered(proposal)) && w.reservation == Completed
    case Rejecting(_) => LastIs(w.calls, Refused)
    case Doubting => LastIs(w.calls, Ambiguous)
    case DoubtingRow => LastIs(w.calls, Ambiguous) && w.reservation == UnknownOutcome
    case DisowningRow => w.reservation == UnknownOutcome
    case _ => true
  }

  predicate RowOk(w: World) {
    match w.row
    case NoRow => w.calls == []
    case RowRejected => AllRefused(w.calls)
    case RowCompleted(response) => LastIs(w.calls, Answered(response)) && w.reservation == Completed
    case _ => true
  }

  ghost predicate Inv(w: World) {
    && OnlyLastMayDiffer(w.calls)
    && RowOk(w)
    && (forall i :: i in w.procs ==> HolderOk(w, w.procs[i]))
    && (forall i, j :: i in w.procs && j in w.procs && i != j && Holds(w.procs[i]) ==> !Holds(w.procs[j]))
    && (w.row.NoRow? || w.row.RowRejected? ==> forall i :: i in w.procs ==> !Holds(w.procs[i]))
    && (forall p :: p in w.results ==> w.row == RowCompleted(p))
  }

  /** One step of a process, with its new program counter put in place. */
  function Stepped(w: World, i: nat, outcome: Outcome): World {
    Happen(w, Continue(i, outcome))
  }

  /** The parts of the invariant that are about the row, the calls and the results. */
  ghost predicate RecordsOk(w: World) {
    && OnlyLastMayDiffer(w.calls) && RowOk(w)
    && (forall p :: p in w.results ==> w.row == RowCompleted(p))
  }

  /** What a step of the holder leaves for itself and for the others. */
  lemma HolderStepLeaves(w: World, p: Proc, outcome: Outcome)
    requires Holds(p) && HolderOk(w, p) && RecordsOk(w) && !(w.row.NoRow? || w.row.RowRejected?)
    ensures var (w', p') := Step(w, p, outcome);
      && w'.procs == w.procs && HolderOk(w', p') && RecordsOk(w')
      && (w.reservation == UnknownOutcome ==> w'.reservation == UnknownOutcome)
      && (w'.row.NoRow? || w'.row.RowRejected? ==> !Holds(p'))
  {
  }

  lemma HolderStepKeeps(w: World, i: nat, outcome: Outcome)
    requires Inv(w) && i in w.procs && Holds(w.procs[i])
    ensures Inv(Stepped(w, i, outcome))
  {
    hide Step, OnlyLastMayDiffer;
    HolderStepLeaves(w, w.procs[i], outcome);
    var w' := Stepped(w, i, outcome);
    forall j | j in w'.procs ensures HolderOk(w', w'.procs[j]) {
      if j != i {
        assert !Holds(w.procs[j]);
        assert HolderOk(w, w.procs[j]);
      }
    }
  }

  lemma ClaimStepKeeps(w: World, i: nat, outcome: Outcome)
    requires Inv(w) && i in w.procs && (w.procs[i].RetryClaiming? || w.procs[i].Inserting?)
    ensures Inv(Stepped(w, i, outcome))
  {
    var w' := Stepped(w, i, outcome);
    forall j | j in w'.procs ensures HolderOk(w', w'.procs[j]) {
      if j != i {
        assert HolderOk(w, w.procs[j]);
      }
    }
  }

  /** Declaring the outcome unknown places no call and holds nothing. */
  lemma DisownStepLeaves(w: World, p: Proc, outcome: Outcome)
    requires (p.Disowning? || p.DisowningRow?) && HolderOk(w, p) && RecordsOk(w)
    ensures var (w', p') := Step(w, p, outcome);
      && w'.procs == w.procs && w'.calls == w.calls && !Holds(p') && HolderOk(w', p') && RecordsOk(w')
      && (w'.reservation == w.reservation || (w.reservation == InFlight && w'.reservation == UnknownOutcome))
      && (w'.row == w.row || (!w.row.NoRow? && w'.row == RowUnknown))
  {
  }

  lemma DisownStepKeeps(w: World, i: nat, outcome: Outcome)
    requires Inv(w) && (ProcOf(w, i).Disowning? || ProcOf(w, i).DisowningRow?)
    ensures Inv(Stepped(w, i, outcome))
  {
    hide Step, OnlyLastMayDiffer;
    DisownStepLeaves(w, ProcOf(w, i), outcome);
    var w' := Stepped(w, i, outcome);
    forall j | j in w'.procs ensures HolderOk(w', w'.procs[j]) {
      if j in w.procs {
        assert HolderOk(w, w.procs[j]);
      }
    }
  }

  lemma ReadStepKeeps(w: World, i: nat, outcome: Outcome)
    requires Inv(w) && (Resting(ProcOf(w, i)) || ProcOf(w, i).Authorized?)
    ensures Inv(Stepped(w, i, outcome))
  {
    var w' := Stepped(w, i, outcome);
    ReadStepReads(w, ProcOf(w, i), outcome);
    hide Step;
    forall j | j in w'.procs ensures HolderOk(w', w'.procs[j]) {
      if j in w.procs {
        assert HolderOk(w, w.procs[j]);
      }
    }
  }

  lemma ReadStepReads(w: World, p: Proc, outcome: Outcome)
    requires Resting(p) || p.Authorized?
    ensures var (w', p') := Step(w, p, outcome);
      && w'.reservation == w.reservation && w'.row == w.row && w'.calls == w.calls && w'.procs == w.procs
      && (p' == p || (!Holds(p') && !p'.DisowningRow?))
      && (w'.results == w.results || (w.row.RowCompleted? && w'.results == w.results + {w.row.response}))
  {
  }

  lemma BeginKeeps(w: World, i: nat, due: bool, withinBudget: bool)
    requires Inv(w)
    ensures Inv(Happen(w, Begin(i, due, withinBudget)))
  {
    hide Step, OnlyLastMayDiffer;
    var w' := Happen(w, Begin(i, due, withinBudget));
    forall j | j in w'.procs ensures HolderOk(w', w'.procs[j]) {
      if j != i {
        assert HolderOk(w, w.procs[j]);
      }
    }
  }

  lemma HappenKeeps(w: World, e: Event)
    requires Inv(w)
    ensures Inv(Happen(w, e))
  {
    match e
    case Continue(i, outcome) =>
      hide Inv, Happen;
      if Holds(ProcOf(w, i)) {
        HolderStepKeeps(w, i, outcome);
      } else if ProcOf(w, i).RetryClaiming? || ProcOf(w, i).Inserting? {
        ClaimStepKeeps(w, i, outcome);
      } else if ProcOf(w, i).Disowning? || ProcOf(w, i).DisowningRow? {
        DisownStepKeeps(w, i, outcome);
      } else {
        ReadStepKeeps(w, i, outcome);
      }
    case Begin(i, due, withinBudget) =>
      BeginKeeps(w, i, due, withinBudget);
    case Crash(i) =>
  }

  lemma {:induction false} AfterKeeps(w: World, events: seq<Event>)
    requires Inv(w)
    ensures Inv(After(w, events))
    decreases |events|
  {
    if events != [] {
      AfterKeeps(w, events[..|events| - 1]);
      HappenKeeps(After(w, events[..|events| - 1]), events[|events| - 1]);
    }
  }

  lemma ReachableKeeps(w: World)
    requires Reachable(w)
    ensures Inv(w)
  {
    var events :| w == After(Fresh, events);
    AfterKeeps(Fresh, events);
  }

  lemma AfterThen(w: World, events: seq<Event>, e: Event)
    ensures After(w, events + [e]) == Happen(After(w, events), e)
  {
    assert (events + [e])[..|events|] == events;
  }

  lemma Then(from: World, w: World, e: Event)
    requires Leads(from, w)
    ensures Leads(from, Happen(w, e))
  {
    var events :| w == After(from, events);
    AfterThen(from, events, e);
  }

  // ----- The theorems -----

  function Refusals(calls: seq<Call>): nat {
    if calls == [] then 0
    else Refusals(calls[..|calls| - 1]) + if calls[|calls| - 1] == Refused then 1 else 0
  }

  lemma {:induction false} RefusalsOfRefused(calls: seq<Call>)
    requires AllRefused(calls)
    ensures Refusals(calls) == |calls|
    decreases |calls|
  {
    if calls != [] {
      RefusalsOfRefused(calls[..|calls| - 1]);
    }
  }

  /**
    However processes interleave and die: a call is placed only when every
    earlier one was refused. So two calls are never under way together, none
    follows one whose outcome is in doubt, and their number is at most one more
    than the refusals.
   */
  lemma CallsNeverOverlap(w: World, k: nat)
    requires Reachable(w) && k < |w.calls| - 1
    ensures w.calls[k] == Refused
    ensures |w.calls| == Refusals(w.calls) + if w.calls[|w.calls| - 1] == Refused then 0 else 1
  {
    ReachableKeeps(w);
    var front := w.calls[..|w.calls| - 1];
    assert AllRefused(front);
    RefusalsOfRefused(front);
  }

  lemma NothingFollowsDoubt(w: World, e: Event)
    requires Reachable(w) && w.calls != [] && w.calls[|w.calls| - 1] != Refused
    ensures |Happen(w, e).calls| == |w.calls|
  {
    ReachableKeeps(w);
    if e.Continue? && ProcOf(w, e.i).Launching? {
      assert HolderOk(w, w.procs[e.i]);
    }
  }

  /** Every process that returns, at once or from the stored response, returns the one answered proposal. */
  lemma OneProposal(w: World, p: Proposal, q: Proposal)
    requires Reachable(w) && p in w.results && q in w.results
    ensures p == q
    ensures w.calls != [] && w.calls[|w.calls| - 1] == Answered(p)
  {
    ReachableKeeps(w);
  }

  // ----- One process at a time -----

  /** n steps of one process with the provider answering as given. */
  function Alone(w: World, i: nat, n: nat, outcome: Outcome): World {
    if n == 0 then w else Stepped(Alone(w, i, n - 1, outcome), i, outcome)
  }

  /** A first request whose call is answered returns the answer and stores it. */
  lemma AnsweredRequestReturns(i: nat, proposal: Proposal)
    ensures var done := Alone(Happen(Fresh, Begin(i, true, true)), i, 6, Answers(proposal));
      && ProcOf(done, i) == Returned(proposal)
      && done.row == RowCompleted(proposal) && done.reservation == Completed && done.calls == [Answered(proposal)]
  {
    var w0 := Happen(Fresh, Begin(i, true, true));
    var w1 := Stepped(w0, i, Answers(proposal));
    var w2 := Stepped(w1, i, Answers(proposal));
    var w3 := Stepped(w2, i, Answers(proposal));
    var w4 := Stepped(w3, i, Answers(proposal));
    var w5 := Stepped(w4, i, Answers(proposal));
    var w6 := Stepped(w5, i, Answers(proposal));
    assert ProcOf(w1, i) == Inserting && ProcOf(w2, i) == Launching && ProcOf(w3, i) == Calling;
    assert w3.calls == [Pending] && w4.calls == [Answered(proposal)];
    assert ProcOf(w4, i) == Answering(proposal) && ProcOf(w5, i) == Settling(proposal);
    AloneIsSix(w0, i, Answers(proposal));
  }

  lemma AloneIsSix(w: World, i: nat, o: Outcome)
    ensures Alone(w, i, 6, o) == Stepped(Stepped(Stepped(Stepped(Stepped(Stepped(w, i, o), i, o), i, o), i, o), i, o), i, o)
  {
    hide Happen;
    assert Alone(w, i, 2, o) == Stepped(Stepped(w, i, o), i, o) by {
      assert Alone(w, i, 1, o) == Stepped(Alone(w, i, 0, o), i, o);
    }
    assert Alone(w, i, 4, o) == Stepped(Stepped(Alone(w, i, 2, o), i, o), i, o) by {
      assert Alone(w, i, 3, o) == Stepped(Alone(w, i, 2, o), i, o);
    }
    assert Alone(w, i, 5, o) == Stepped(Alone(w, i, 4, o), i, o);
  }

  /** A completed request is answered from the row: no new call, whatever the provider would have said. */
  lemma CompletedRequestReplays(w: World, i: nat, proposal: Proposal, due: bool, withinBudget: bool, outcome: Outcome)
    requires w.reservation == Completed && w.row == RowCompleted(proposal)
    ensures var done := Stepped(Happen(w, Begin(i, due, withinBudget)), i, outcome);
      ProcOf(done, i) == Returned(proposal) && done == w.(procs := w.procs[i := Returned(proposal)], results := w.results + {proposal})
  {
    var w0 := Happen(w, Begin(i, due, withinBudget));
    assert w0.procs[i := Returned(proposal)] == w.procs[i := Returned(proposal)];
  }

  /** An in-flight row found at the start means a lost call: the request is closed without another one. */
  lemma LostCallIsNotRepeated(w: World, i: nat, due: bool, withinBudget: bool, outcome: Outcome)
    requires w.reservation == InFlight && w.row == RowInFlight
    ensures var w0 := Happen(w, Begin(i, due, withinBudget));
      var done := Stepped(Stepped(Stepped(w0, i, outcome), i, outcome), i, outcome);
      ProcOf(done, i) == Raised && done.calls == w.calls && done.row == RowUnknown && done.reservation == UnknownOutcome
  {
    var w0 := Happen(w, Begin(i, due, withinBudget));
    var w1 := Stepped(w0, i, outcome);
    var w2 := Stepped(w1, i, outcome);
    assert ProcOf(w0, i) == Authorized && ProcOf(w1, i) == Disowning && ProcOf(w2, i) == DisowningRow;
  }

  /** A refusal that may be retried, once the retry is due and within budget, leads to another call. */
  lemma RefusedRequestIsRetried(w: World, i: nat, outcome: Outcome)
    requires w.reservation == ProviderRejected(true) && w.row == RowRejected
    ensures var w0 := Happen(w, Begin(i, true, true));
      var done := Stepped(Stepped(Stepped(w0, i, outcome), i, outcome), i, outcome);
      && ProcOf(done, i) == Calling && done.calls == w.calls + [Pending]
      && done.row == RowInFlight && done.reservation == InFlight
    ensures forall due, withinBudget :: !(due && withinBudget) ==> ProcOf(Happen(w, Begin(i, due, withinBudget)), i) == Raised
  {
    var w0 := Happen(w, Begin(i, true, true));
    var w1 := Stepped(w0, i, outcome);
    var w2 := Stepped(w1, i, outcome);
    assert ProcOf(w0, i) == Authorized && ProcOf(w1, i) == RetryClaiming && ProcOf(w2, i) == Launching;
  }

  // ----- What a call leaves behind -----

  /** A process whose call is under way, with the row its own and the reservation in flight. */
  predicate Waiting(w: World, i: nat) {
    w.reservation == InFlight && w.row == RowInFlight && w.calls != [] && i in w.procs && w.procs[i] == Calling
  }

  function EndedWith(calls: seq<Call>, call: Call): seq<Call>
    requires calls != []
  {
    calls[|calls| - 1 := call]
  }

  /** A refusal is recorded as what it was: one that may be retried, or one for good. */
  lemma RefusalIsRecorded(w: World, i: nat, retryable: bool)
    requires Waiting(w, i)
    ensures Stepped(Stepped(w, i, Refuses(retryable)), i, Refuses(retryable)) ==
      World(ProviderRejected(retryable), RowRejected, EndedWith(w.calls, Refused), w.procs[i := Raised], w.results)
  {
    var w1 := Stepped(w, i, Refuses(retryable));
    assert w1 == World(InFlight, RowInFlight, EndedWith(w.calls, Refused), w.procs[i := Rejecting(retryable)], w.results);
    assert w1.procs[i := Raised] == w.procs[i := Raised];
  }

  /** A call that failed leaves reservation and row unknown. */
  lemma DoubtIsRecorded(w: World, i: nat)
    requires Waiting(w, i)
    ensures Stepped(Stepped(Stepped(w, i, Fails), i, Fails), i, Fails) ==
      World(UnknownOutcome, RowUnknown, EndedWith(w.calls, Ambiguous), w.procs[i := Raised], w.results)
  {
    var w1 := Stepped(w, i, Fails);
    assert w1 == World(InFlight, RowInFlight, EndedWith(w.calls, Ambiguous), w.procs[i := Doubting], w.results);
    var w2 := Stepped(w1, i, Fails);
    assert w2 == World(UnknownOutcome, RowInFlight, EndedWith(w.calls, Ambiguous), w.procs[i := DoubtingRow], w.results);
    assert w2.procs[i := Raised] == w.procs[i := Raised];
  }

  /** An answer completes both and is returned. */
  lemma AnswerIsRecorded(w: World, i: nat, proposal: Proposal)
    requires Waiting(w, i)
    ensures var o := Answers(proposal);
      Stepped(Stepped(Stepped(w, i, o), i, o), i, o) ==
        World(Completed, RowCompleted(proposal), EndedWith(w.calls, Answered(proposal)), w.procs[i := Returned(proposal)], w.results + {proposal})
  {
    var o := Answers(proposal);
    var w1 := Stepped(w, i, o);
    assert w1 == World(InFlight, RowInFlight, EndedWith(w.calls, Answered(proposal)), w.procs[i := Answering(proposal)], w.results);
    var w2 := Stepped(w1, i, o);
    assert w2 == World(Completed, RowInFlight, EndedWith(w.calls, Answered(proposal)), w.procs[i := Settling(proposal)], w.results);
    assert w2.procs[i := Returned(proposal)] == w.procs[i := Returned(proposal)];
  }

  /** A request granted while the row is free is soon waiting for one more call; without budget it is refused and nothing happens. */
  lemma GrantedRequestWaits(w: World, i: nat, o: Outcome)
    requires (w.reservation == Unreserved && w.row == NoRow) || (w.reservation == ProviderRejected(true) && w.row == RowRejected)
    ensures var waiting := Stepped(Stepped(Stepped(Happen(w, Begin(i, true, true)), i, o), i, o), i, o);
      Waiting(waiting, i) && waiting == World(InFlight, RowInFlight, w.calls + [Pending], w.procs[i := Calling], w.results)
    ensures forall due :: Happen(w, Begin(i, due, false)) == w.(procs := w.procs[i := Raised])
  {
    var w0 := Happen(w, Begin(i, true, true));
    assert w0 == World(InFlight, w.row, w.calls, w.procs[i := Authorized], w.results);
    var w1 := Stepped(w0, i, o);
    assert w1 == World(InFlight, w.row, w.calls, w.procs[i := if w.row.NoRow? then Inserting else RetryClaiming], w.results);
    var w2 := Stepped(w1, i, o);
    assert w2 == World(InFlight, RowInFlight, w.calls, w.procs[i := Launching], w.results);
    assert w2.procs[i := Calling] == w.procs[i := Calling];
  }

  /** Whole requests, one process at a time: three steps to the call, and then those that record its outcome. */
  function Asked(w: World, i: nat, o: Outcome): World {
    Stepped(Stepped(Stepped(Happen(w, Begin(i, true, true)), i, o), i, o), i, o)
  }

  /** A first request is refused with leave to retry; asked again, it is answered, and the answer is returned. */
  lemma RefusedThenAnswered(i: nat, proposal: Proposal)
    ensures var no, yes := Refuses(true), Answers(proposal);
      var refused := Stepped(Stepped(Asked(Fresh, i, no), i, no), i, no);
      var done := Stepped(Stepped(Stepped(Asked(refused, i, yes), i, yes), i, yes), i, yes);
      && ProcOf(refused, i) == Raised && refused.reservation == ProviderRejected(true)
      && ProcOf(done, i) == Returned(proposal) && done.calls == [Refused, Answered(proposal)]
      && done.row == RowCompleted(proposal) && done.reservation == Completed && done.results == {proposal}
  {
    hide Step, Happen;
    var no, yes := Refuses(true), Answers(proposal);
    GrantedRequestWaits(Fresh, i, no);
    RefusalIsRecorded(Asked(Fresh, i, no), i, true);
    var refused := Stepped(Stepped(Asked(Fresh, i, no), i, no), i, no);
    assert refused.calls == [Refused];
    GrantedRequestWaits(refused, i, yes);
    assert Asked(refused, i, yes).calls == [Refused, Pending];
    AnswerIsRecorded(Asked(refused, i, yes), i, proposal);
  }

  /** One that is refused for good, or fails, is not granted again. */
  lemma ClosedForGood(i: nat, o: Outcome, due: bool, withinBudget: bool)
    requires o == Refuses(false) || o == Fails
    ensures var asked := Asked(Fresh, i, o);
      var done := if o.Fails? then Stepped(Stepped(Stepped(asked, i, o), i, o), i, o) else Stepped(Stepped(asked, i, o), i, o);
      && |done.calls| == 1 && ProcOf(done, i) == Raised
      && ProcOf(Happen(done, Begin(i, due, withinBudget)), i) == Raised
  {
    GrantedRequestWaits(Fresh, i, o);
    if o.Fails? {
      DoubtIsRecorded(Asked(Fresh, i, o), i);
    } else {
      RefusalIsRecorded(Asked(Fresh, i, o), i, false);
    }
    hide Step;
  }
}
