/**
  execute_fresh_review_only over one attempt, with the operator's retry
  authorizations, and execute_triage_only. A review is launched once and then
  once for every authorization used up; each authorization is for the failure
  of one launch.
 */
module ReviewStage {
  import opened Options
  import opened ModelStages

  const MAX_REVIEW_INVOCATIONS := 3

  predicate Failed(status: Status) {
    status.Timeout? || status.ProcessError? || status.MalformedOutput?
  }

  /** The rows are the launches in order; every launch but the newest failed and had its retry authorized and used. */
  ghost predicate InOrder(invocations: seq<Invocation>, authorizations: map<Slot, bool>) {
    && (forall k :: 0 <= k < |invocations| ==> invocations[k].slot == k + 1)
    && (forall k :: 0 <= k < |invocations| - 1 ==> Failed(invocations[k].status))
    && (forall k: Slot :: k < |invocations| ==> k in authorizations && authorizations[k])
    && (forall k :: k in authorizations ==> k <= |invocations|)
    && (|invocations| in authorizations ==> !authorizations[|invocations|] && Failed(invocations[|invocations| - 1].status))
  }

  /** The only artifact recorded is the newest launch's. */
  ghost predicate NewestRecorded(invocations: seq<Invocation>, stages: map<Slot, Artifact>) {
    forall k :: k in stages ==> k == |invocations| && invocations[k - 1].status == Completed(stages[k])
  }

  /** The newest launch answered with this artifact. */
  predicate Verdict(invocations: seq<Invocation>, slot: Slot, artifact: Artifact) {
    invocations != [] && slot == |invocations| && invocations[|invocations| - 1].status == Completed(artifact)
  }

  predicate Decided(invocations: seq<Invocation>) {
    invocations != [] && invocations[|invocations| - 1].status.Completed?
  }

  function Used(authorizations: map<Slot, bool>): set<Slot> {
    set k | k in authorizations && authorizations[k]
  }

  lemma {:induction false} UpToSize(numbers: set<Slot>, n: nat)
    requires forall k: Slot :: k in numbers <==> k <= n
    ensures |numbers| == n
    decreases n
  {
    if n == 0 {
      assert numbers == {} by {
        forall k | k in numbers ensures false {
          var s: Slot := k;
        }
      }
    } else {
      UpToSize(numbers - {n}, n - 1);
    }
  }

  /** Launches are one more than the authorizations used, once there is one. */
  lemma LaunchesCounted(invocations: seq<Invocation>, authorizations: map<Slot, bool>)
    requires InOrder(invocations, authorizations)
    ensures |invocations| == if invocations == [] then 0 else 1 + |Used(authorizations)|
  {
    if invocations != [] {
      UpToSize(Used(authorizations), |invocations| - 1);
    }
  }

  lemma UnusedIsForTheNewest(invocations: seq<Invocation>, authorizations: map<Slot, bool>, latest: nat)
    requires InOrder(invocations, authorizations) && invocations != []
    requires latest < |invocations| && latest + 1 in authorizations && !authorizations[latest + 1]
    ensures latest + 1 == |invocations| && !Decided(invocations) && Failed(invocations[latest].status)
  {
  }

  lemma FirstInOrder(authorizations: map<Slot, bool>)
    requires InOrder([], authorizations)
    ensures InOrder([Invocation(1, Started)], authorizations)
  {
  }

  /** A launch under way has no authorization yet, so whatever it comes to the rows stay in order. */
  lemma NewestConcluded(begun: seq<Invocation>, concluded: seq<Invocation>, authorizations: map<Slot, bool>)
    requires InOrder(begun, authorizations) && begun != [] && begun[|begun| - 1].status.Started?
    requires |concluded| == |begun| && concluded[|begun| - 1].slot == |begun|
    requires forall k :: 0 <= k < |begun| - 1 ==> concluded[k] == begun[k]
    ensures InOrder(concluded, authorizations)
  {
  }

  class Review {
    const log: InvocationLog
    /** Authorizations by the launch whose failure they answer; true once used. */
    var authorizations: map<Slot, bool>
    /** A verdict has been applied: review_results has its row. */
    var applied: bool

    constructor (log: InvocationLog)
      requires log.Valid() && log.invocations == [] && log.stages == map[] && log.limit == MAX_REVIEW_INVOCATIONS
      ensures this.log == log && Valid() && authorizations == map[] && !applied
    {
      this.log := log;
      authorizations, applied := map[], false;
    }

    ghost predicate Valid() reads this`authorizations, log`invocations, log`stages, log`calls {
      && log.Valid() && log.limit == MAX_REVIEW_INVOCATIONS
      && InOrder(log.invocations, authorizations) && NewestRecorded(log.invocations, log.stages)
    }

    /**
      authorize_review_retry. Rows begun in the same second come in the order of
      their random names, so an older one may be taken for the latest: latest
      says which.
     */
    method Authorize(latest: nat, candidateMatches: bool) returns (ok: bool)
      requires Valid() && (log.invocations == [] || latest < |log.invocations|)
      modifies this`authorizations
      ensures Valid()
      ensures ok <==>
        && candidateMatches && !applied && log.stages == map[]
        && log.invocations != [] && Failed(log.invocations[latest].status) && |log.invocations| < MAX_REVIEW_INVOCATIONS
      ensures !ok ==> authorizations == old(authorizations)
      ensures ok ==> latest < |log.invocations| && Failed(log.invocations[latest].status)
      ensures ok ==> authorizations == if latest + 1 in old(authorizations) then old(authorizations) else old(authorizations)[latest + 1 := false]
    {
      hide log.Valid;
      if !candidateMatches || applied || log.stages != map[] || log.invocations == [] || !Failed(log.invocations[latest].status) {
        return false;
      }
      if |log.invocations| >= MAX_REVIEW_INVOCATIONS {
        return false;
      }
      if latest + 1 !in authorizations {
        authorizations := authorizations[latest + 1 := false];
      }
      ok := true;
    }

    /** launch_authorized_review: the authorization is used up and the row appears, at once. */
    method LaunchAuthorized(latest: nat) returns (r: Result)
      requires Valid() && latest < |log.invocations| && latest + 1 in authorizations && !authorizations[latest + 1]
      modifies this`authorizations, log`invocations, log`lives
      ensures Valid()
      ensures latest + 1 == |old(log.invocations)|
      ensures r.Ok? <==> !applied && log.stages == map[] && |old(log.invocations)| < MAX_REVIEW_INVOCATIONS && old(log.lives) > 0
      ensures r.Ok? ==> log.invocations == old(log.invocations) + [Invocation(|old(log.invocations)| + 1, Started)] && log.lives == old(log.lives) - 1
      ensures r.Ok? ==> Launched(log.invocations, |log.invocations|) && forall k :: 0 <= k < |log.calls| ==> log.calls[k].slot != |log.invocations|
      ensures authorizations == if r.Ok? then old(authorizations)[latest + 1 := true] else old(authorizations)
      ensures r.Err? ==> log.invocations == old(log.invocations) && log.lives == old(log.lives)
      ensures r.Err? ==> r == Err(if applied || log.stages != map[] then NotAuthorized
                                  else if |log.invocations| >= MAX_REVIEW_INVOCATIONS then BudgetExhausted else Died)
    {
      hide Sound;
      if applied || log.stages != map[] || !Failed(log.invocations[latest].status) {
        return Err(NotAuthorized);
      }
      if |log.invocations| >= MAX_REVIEW_INVOCATIONS {
        return Err(BudgetExhausted);
      }
      assert !Launched(log.invocations, |log.invocations| + 1);
      var alive := log.Start(|log.invocations| + 1);
      if !alive {
        return Err(Died);
      }
      authorizations := authorizations[latest + 1 := true];
      r := Ok(|log.invocations|, "");
    }

    /** A retry of this launch is authorized and not used up. */
    predicate Unused(latest: nat) reads this {
      latest + 1 in authorizations && !authorizations[latest + 1]
    }

    /** Nothing launched yet, or the latest launch failed and its retry is authorized and unused. */
    predicate MayLaunch(latest: nat) reads this, log {
      && log.stages == map[]
      && (log.invocations == [] || (latest < |log.invocations| && Failed(log.invocations[latest].status) && latest + 1 in authorizations && !authorizations[latest + 1]))
    }

    /** And a launch is still within the budget; a retry is none once a verdict has been applied. */
    predicate Launching(latest: nat) reads this, log {
      MayLaunch(latest) && (log.invocations == [] || (!applied && |log.invocations| < MAX_REVIEW_INVOCATIONS))
    }

    /** A recorded or recoverable verdict, or the refusal to review again; None asks for a launch. */
    method Recover(latest: nat, intact: bool) returns (r: Option<Result>)
      requires Valid() && (log.invocations == [] || latest < |log.invocations|)
      modifies log`stages, log`lives
      ensures Valid()
      ensures r == None ==> log.stages == old(log.stages) == map[] && log.lives == old(log.lives)
      ensures r == None <==> old(log.stages) == map[] && (log.invocations == [] || (!log.invocations[latest].status.Completed? && Unused(latest)))
      ensures old(log.stages) != map[] ==>
        log.stages == old(log.stages) && exists s :: s in log.stages && r == Some(if intact then Ok(s, log.stages[s]) else Err(ArtifactMissing))
      ensures old(log.stages) == map[] && log.invocations != [] && log.invocations[latest].status.Completed? ==>
        r == Some(InvocationLog.Recorded(log.invocations[latest], intact, old(log.lives)))
      ensures r.Some? && old(log.stages) == map[] && !log.invocations[latest].status.Completed? ==> r == Some(Err(NotAuthorized)) && log.stages == map[]
      ensures r.Some? && r.value.Ok? ==> Gave(log.calls, r.value.slot, r.value.artifact) && Verdict(log.invocations, r.value.slot, r.value.artifact)
      ensures old(MayLaunch(latest)) ==> r == None
      ensures old(Decided(log.invocations)) && intact && old(log.lives) >= 1 && latest + 1 == |log.invocations| ==> r.Some? && r.value.Ok?
    {
      hide CallsSound;
      if log.stages != map[] {
        var slot :| slot in log.stages;
        return Some(if intact then Ok(slot, log.stages[slot]) else Err(ArtifactMissing));
      }
      if log.invocations == [] {
        return None;
      }
      if log.invocations[latest].status.Completed? {
        var recovered := log.RecordCompleted(latest, intact);
        return Some(recovered);
      }
      if latest + 1 !in authorizations || authorizations[latest + 1] {
        return Some(Err(NotAuthorized));
      }
      r := None;
    }

    /**
      One review run. ready stands for the claim, the candidate, the packet and the
      policy being as frozen; abandoned for the launch being declared stale while
      the call is under way.
     */
    method Execute(ready: bool, latest: nat, intact: bool, outcome: Outcome, abandoned: bool) returns (r: Result)
      requires Valid() && (log.invocations == [] || latest < |log.invocations|)
      modifies this`authorizations, log
      ensures Valid()
      ensures log.calls == old(log.calls)
        || (|log.invocations| == |old(log.invocations)| + 1 && log.calls == old(log.calls) + [Call(|log.invocations|, outcome)])
      ensures old(Decided(log.invocations)) ==> log.invocations == old(log.invocations)
      ensures r.Ok? ==> Gave(log.calls, r.slot, r.artifact) && Verdict(log.invocations, r.slot, r.artifact)
      ensures !ready ==> r == Err(NotReady) && log.stages == old(log.stages)
      ensures !ready || !old(MayLaunch(latest)) ==> log.calls == old(log.calls) && log.invocations == old(log.invocations) && authorizations == old(authorizations)
      // A verdict recorded, or still to be recorded, is answered; a failed launch without a retry authorized is not launched again.
      ensures ready && old(log.stages) != map[] ==>
        log.stages == old(log.stages) && exists s :: s in log.stages && r == if intact then Ok(s, log.stages[s]) else Err(ArtifactMissing)
      ensures ready && old(log.stages) == map[] && old(log.invocations) != [] && old(log.invocations)[latest].status.Completed? ==>
        r == InvocationLog.Recorded(old(log.invocations)[latest], intact, old(log.lives))
      ensures ready && old(log.stages) == map[] && old(log.invocations) != [] && !old(log.invocations)[latest].status.Completed? && !old(Unused(latest)) ==>
        r == Err(NotAuthorized)
      ensures ready && old(MayLaunch(latest)) && !old(Launching(latest)) ==>
        r == Err(if applied then NotAuthorized else BudgetExhausted) && log.calls == old(log.calls) && log.invocations == old(log.invocations)
      // A launch, as far as the run lives: the row, with its authorization if it is a retry, the call, its outcome.
      ensures ready && old(Launching(latest)) ==>
        if old(log.lives) == 0 then r == Err(Died) && log.calls == old(log.calls) && log.invocations == old(log.invocations) && authorizations == old(authorizations)
        else
          var n := |old(log.invocations)| + 1;
          && log.invocations == old(log.invocations) + [Invocation(n, InvocationLog.StatusAfter(old(log.lives) - 1, outcome, abandoned))]
          && log.calls == (if old(log.lives) >= 2 then old(log.calls) + [Call(n, outcome)] else old(log.calls))
          && authorizations == (if n == 1 then old(authorizations) else old(authorizations)[latest + 1 := true])
          && r == InvocationLog.ResultAfter(old(log.lives) - 1, n, outcome, abandoned)
    {
      if !ready {
        return Err(NotReady);
      }
      var recovered := Recover(latest, intact);
      if recovered.Some? {
        return recovered.value;
      }
      r := Place(latest, outcome, abandoned);
    }

    method Place(latest: nat, outcome: Outcome, abandoned: bool) returns (r: Result)
      requires Valid() && log.stages == map[]
      requires log.invocations == [] || (latest < |log.invocations| && latest + 1 in authorizations && !authorizations[latest + 1])
      modifies this`authorizations, log
      ensures Valid()
      ensures log.calls == old(log.calls)
        || (|log.invocations| == |old(log.invocations)| + 1 && log.calls == old(log.calls) + [Call(|log.invocations|, outcome)])
      ensures old(Decided(log.invocations)) ==> log.invocations == old(log.invocations)
      ensures r.Ok? ==> Gave(log.calls, r.slot, r.artifact) && Verdict(log.invocations, r.slot, r.artifact)
      ensures !old(Launching(latest)) ==>
        && log.calls == old(log.calls) && log.invocations == old(log.invocations) && authorizations == old(authorizations)
        && r == Err(if applied || !old(MayLaunch(latest)) then NotAuthorized else BudgetExhausted)
      // A launch, as far as the run lives: the row, with its authorization if it is a retry, the call, its outcome.
      ensures old(Launching(latest)) ==>
        if old(log.lives) == 0 then r == Err(Died) && log.calls == old(log.calls) && log.invocations == old(log.invocations) && authorizations == old(authorizations)
        else
          var n := |old(log.invocations)| + 1;
          && log.invocations == old(log.invocations) + [Invocation(n, InvocationLog.StatusAfter(old(log.lives) - 1, outcome, abandoned))]
          && log.calls == (if old(log.lives) >= 2 then old(log.calls) + [Call(n, outcome)] else old(log.calls))
          && authorizations == (if n == 1 then old(authorizations) else old(authorizations)[latest + 1 := true])
          && r == InvocationLog.ResultAfter(old(log.lives) - 1, n, outcome, abandoned)
    {
      hide Sound, InOrder;
      if log.invocations != [] {
        UnusedIsForTheNewest(log.invocations, authorizations, latest);
      }
      if log.invocations == [] {
        FirstInOrder(authorizations);
        var alive := log.Start(1);
        if !alive {
          return Err(Died);
        }
      } else {
        r := LaunchAuthorized(latest);
        if r.Err? {
          return;
        }
      }
      ghost var begun := log.invocations;
      r := log.Conclude(|log.invocations|, outcome, abandoned);
      NewestConcluded(begun, log.invocations, authorizations);
    }

    /** recover_stale_review_invocation. */
    method RecoverStale(at: nat)
      requires Valid() && at < |log.invocations|
      modifies log`invocations
      ensures Valid()
      ensures log.invocations == if old(log.invocations)[at].status == Started then old(log.invocations)[at := Invocation(old(log.invocations)[at].slot, ProcessError)]
                                 else old(log.invocations)
    {
      hide Sound;
      log.Abandon(at);
    }
  }

  function Within(latest: nat, n: nat): nat {
    if latest < n || n == 0 then latest else n - 1
  }

  datatype Turn =
    | Run(ready: bool, latest: nat, intact: bool, outcome: Outcome, abandoned: bool, lives: nat)
    | Authorized(latest: nat, candidateMatches: bool)
    | Stale(at: nat)
    | Applied

  function Runs(turns: seq<Turn>): nat {
    if turns == [] then 0 else Runs(turns[..|turns| - 1]) + if turns[|turns| - 1].Run? then 1 else 0
  }

  /**
    Over any history of runs, cut off anywhere, and of operators between them:
    calls never outnumber one and the authorizations used, never exceed three,
    and all runs that return a verdict return the same one.
   */
  method History(review: Review, turns: seq<Turn>) returns (results: seq<Result>)
    requires review.Valid() && review.log.calls == []
    modifies review, review.log
    ensures |results| == Runs(turns)
    ensures |review.log.calls| <= 1 + |Used(review.authorizations)|
    ensures |review.log.calls| <= MAX_REVIEW_INVOCATIONS
    ensures forall i :: 0 <= i < |results| && results[i].Ok? ==> Gave(review.log.calls, results[i].slot, results[i].artifact)
    ensures forall i, j :: 0 <= i < |results| && 0 <= j < |results| && results[i].Ok? && results[j].Ok? ==> results[i] == results[j]
  {
    var log := review.log;
    results := [];
    for i := 0 to |turns|
      invariant |results| == Runs(turns[..i])
      invariant review.Valid()
      invariant forall k :: 0 <= k < |results| && results[k].Ok? ==>
        Gave(log.calls, results[k].slot, results[k].artifact) && Verdict(log.invocations, results[k].slot, results[k].artifact)
    {
      hide Sound, InOrder, NewestRecorded;
      assert turns[..i + 1][..i] == turns[..i];
      match turns[i]
      case Run(ready, latest, intact, outcome, abandoned, lives) =>
        log.lives := lives;
        ghost var before := log.calls;
        var r := review.Execute(ready, Within(latest, |log.invocations|), intact, outcome, abandoned);
        assert forall c :: c in before ==> c in log.calls;
        results := results + [r];
      case Authorized(latest, candidateMatches) =>
        var ok := review.Authorize(Within(latest, |log.invocations|), candidateMatches);
      case Stale(at) =>
        if at < |log.invocations| {
          review.RecoverStale(at);
        }
      case Applied => review.applied := true;
    }
    assert turns[..|turns|] == turns;
    CallsFit(log.limit, log.invocations, log.stages, log.calls);
    LaunchesCounted(log.invocations, review.authorizations);
    CallsFit(|log.invocations|, log.invocations, log.stages, log.calls);
  }

  // ----- Triage -----

  /** execute_triage_only for one attempt: a single launch, replayed or refused ever after. */
  class Triage {
    const log: InvocationLog

    constructor (log: InvocationLog)
      ensures this.log == log
    {
      this.log := log;
    }

    /** ready stands for the claim, the routing evidence and the parent being as frozen. */
    method Execute(ready: bool, intact: bool, outcome: Outcome) returns (r: Result)
      requires log.Valid() && log.limit == 1
      modifies log
      ensures log.Valid()
      ensures log.calls == if ready && old(log.stages) == map[] && old(log.invocations) == [] && old(log.lives) >= 2
                           then old(log.calls) + [Call(1, outcome)] else old(log.calls)
      ensures r.Ok? ==> Gave(log.calls, 1, r.artifact)
      ensures !ready ==> r == Err(NotReady) && log.invocations == old(log.invocations) && log.stages == old(log.stages)
      ensures ready && old(log.stages) == map[] && old(log.invocations) == [] ==>
        if old(log.lives) == 0 then r == Err(Died) && log.invocations == []
        else
          && r == InvocationLog.ResultAfter(old(log.lives) - 1, 1, outcome, false)
          && log.invocations == [Invocation(1, InvocationLog.StatusAfter(old(log.lives) - 1, outcome, false))]
      ensures ready && 1 in old(log.stages) ==> r == if intact then Ok(1, old(log.stages)[1]) else Err(ArtifactMissing)
      ensures ready && old(log.stages) == map[] && old(log.invocations) != [] ==>
        var row := old(log.invocations)[|old(log.invocations)| - 1];
        && log.invocations == old(log.invocations)
        && r == if row.status.Completed? then InvocationLog.Recorded(row, intact, old(log.lives)) else Err(PriorFailed)
    {
      if !ready {
        return Err(NotReady);
      }
      if 1 in log.stages {
        return if intact then Ok(1, log.stages[1]) else Err(ArtifactMissing);
      }
      assert log.stages == map[] by {
        forall s | s in log.stages ensures false {
          NoOtherSlot(log.invocations, log.stages, log.calls, s);
        }
      }
      if log.invocations == [] {
        var alive := log.Start(1);
        if !alive {
          return Err(Died);
        }
        r := log.Conclude(1, outcome, false);
        return;
      }
      var latest := |log.invocations| - 1;
      if log.invocations[latest].status.Completed? {
        r := log.RecordCompleted(latest, intact);
      } else {
        r := Err(PriorFailed);
      }
    }
  }

  lemma NoOtherSlot(invocations: seq<Invocation>, stages: map<Slot, Artifact>, calls: seq<Call>, slot: Slot)
    requires Sound(1, invocations, stages, calls) && slot in stages
    ensures slot == 1
  {
    var k :| 0 <= k < |calls| && calls[k] == Call(slot, Answers(stages[slot]));
    assert Launched(invocations, calls[k].slot);
  }

  datatype TriageRun = TriageRun(ready: bool, intact: bool, outcome: Outcome, lives: nat)

  /** Over any runs, cut off anywhere: one call, and one proposal returned. */
  method TriageHistory(triage: Triage, runs: seq<TriageRun>) returns (results: seq<Result>)
    requires triage.log.Valid() && triage.log.limit == 1 && triage.log.calls == []
    modifies triage.log
    ensures |triage.log.calls| <= 1 && |results| == |runs|
    ensures forall i, j :: 0 <= i < |results| && 0 <= j < |results| && results[i].Ok? && results[j].Ok? ==> results[i].artifact == results[j].artifact
  {
    hide Sound;
    var log := triage.log;
    results := [];
    for i := 0 to |runs|
      invariant log.Valid() && |results| == i
      invariant forall k :: 0 <= k < |results| && results[k].Ok? ==> Gave(log.calls, 1, results[k].artifact)
    {
      log.lives := runs[i].lives;
      ghost var before := log.calls;
      var r := triage.Execute(runs[i].ready, runs[i].intact, runs[i].outcome);
      assert forall c :: c in before ==> c in log.calls;
      results := results + [r];
    }
    CallsFit(1, log.invocations, log.stages, log.calls);
    forall i, j | 0 <= i < |results| && 0 <= j < |results| && results[i].Ok? && results[j].Ok?
      ensures results[i].artifact == results[j].artifact
    {
      OneAnswer(1, log.invocations, log.stages, log.calls, 1, results[i].artifact, results[j].artifact);
    }
  }
}
