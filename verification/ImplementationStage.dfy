/**
  execute_implementation_model_only over the attempts of one ticket.
 */
module ImplementationStage {
  import opened Options
  import opened ModelStages

  /** The attempt a run is for: the one reconciled, the newest if it has a worktree, or the one after it. */
  predicate IsFor(attempts: map<Slot, bool>, reconciled: Option<Slot>, attempt: Slot) {
    if reconciled.Some? then attempt == reconciled.value && attempt !in attempts
    else
      && (forall a :: a in attempts ==> a <= attempt)
      && (if attempt in attempts then attempts[attempt]
          else if attempts == map[] then attempt == 1
          else attempt > 1 && attempt - 1 in attempts && !attempts[attempt - 1])
  }

  class Implementation {
    const log: InvocationLog
    /** Attempt rows; true once the attempt has a worktree. */
    var attempts: map<Slot, bool>
    /** The attempt an operator's reconciliation of a failed one allows next. */
    var reconciled: Option<Slot>

    constructor (log: InvocationLog)
      ensures this.log == log && attempts == map[] && reconciled == None
    {
      this.log := log;
      attempts, reconciled := map[], None;
    }

    /** The largest attempt number, 0 when there is no attempt. */
    method Newest() returns (newest: nat)
      ensures newest > 0 ==> newest in attempts
      ensures forall a :: a in attempts ==> a <= newest
    {
      var rest := attempts.Keys;
      newest := 0;
      while rest != {}
        invariant rest <= attempts.Keys
        invariant forall a :: a in attempts && a !in rest ==> a <= newest
        invariant newest > 0 ==> newest in attempts
        decreases rest
      {
        var a :| a in rest;
        rest := rest - {a};
        if a > newest {
          newest := a;
        }
      }
    }

    method ChooseAttempt() returns (attempt: Slot, conflict: bool)
      ensures conflict <==> reconciled.Some? && reconciled.value in attempts
      ensures !conflict ==> forall a: Slot :: IsFor(attempts, reconciled, a) <==> a == attempt
    {
      if reconciled.Some? {
        return reconciled.value, reconciled.value in attempts;
      }
      var newest := Newest();
      conflict := false;
      attempt := if newest > 0 && attempts[newest] then newest else newest + 1;
    }

    /** What is done for an attempt that is already known: the outcome recorded for it, or a refusal. */
    method Recover(attempt: Slot, intact: bool) returns (r: Option<Result>)
      requires log.Valid()
      modifies log`stages, log`lives
      ensures log.Valid()
      ensures r == None <==> !Launched(log.invocations, attempt) && attempt !in old(log.stages)
      ensures r == None ==> log.stages == old(log.stages) && log.lives == old(log.lives)
      ensures r.Some? && r.value.Ok? ==> r.value.slot == attempt && Gave(log.calls, attempt, r.value.artifact)
      ensures r.Some? ==> Answered(attempt, old(log.invocations), old(log.stages), intact, old(log.lives), r.value)
      ensures r.Some? && r.value.Err? ==> log.stages == old(log.stages)
    {
      hide Launched, CallsSound;
      if attempt in log.stages {
        return Some(if intact then Ok(attempt, log.stages[attempt]) else Err(ArtifactMissing));
      }
      var prior := log.InvocationFor(attempt);
      if prior == None {
        return None;
      }
      if log.invocations[prior.value].status.Completed? {
        var recovered := log.RecordCompleted(prior.value, intact);
        return Some(recovered);
      }
      r := Some(Err(PriorFailed));
    }

    /** The attempt an operator reconciled to exists already. */
    predicate Conflicting() reads this {
      reconciled.Some? && reconciled.value in attempts
    }

    /** Nothing is unfinished, and this is the attempt a run is for. */
    predicate MayRun(a: Slot) reads this, log`invocations {
      !AnyStarted(log.invocations) && IsFor(attempts, reconciled, a)
    }

    static function Opened(attempts: map<Slot, bool>, a: Slot): map<Slot, bool> {
      if a in attempts then attempts else attempts[a := false]
    }

    /**
      One run. ready stands for the ticket being low risk, implementing, bound to
      this repository and cleaned up; elsewhere for an unfinished invocation of
      another stage; intact for the artifact and the worktree being as recorded;
      isolated for the check before inference. A run places a call only for an
      attempt within the limit that was never launched.
     */
    method Execute(ready: bool, elsewhere: bool, intact: bool, isolated: bool, outcome: Outcome) returns (r: Result)
      requires log.Valid()
      modifies this, log
      ensures log.Valid()
      ensures log.calls == old(log.calls) || exists n: Slot :: OneMore(n, outcome, log.limit, old(log.invocations), old(log.calls), log.calls)
      ensures r.Ok? ==> Gave(log.calls, r.slot, r.artifact)
      // What is refused before anything is written, in order.
      ensures !ready ==> r == Err(NotReady)
      ensures ready && (elsewhere || old(AnyStarted(log.invocations))) ==> r == Err(Incomplete)
      ensures ready && !elsewhere && !old(AnyStarted(log.invocations)) && old(Conflicting()) ==> r == Err(AttemptExists)
      ensures ready && !elsewhere ==> forall a: Slot :: old(MayRun(a)) && a > log.limit ==> r == Err(LimitExhausted)
      ensures !ready || elsewhere || old(AnyStarted(log.invocations)) || old(Conflicting()) || (exists a: Slot :: old(MayRun(a)) && a > log.limit) ==>
        log.calls == old(log.calls) && log.invocations == old(log.invocations) && log.stages == old(log.stages) && attempts == old(attempts)
      // What becomes of the attempt the run is for.
      ensures ready && !elsewhere ==> forall a: Slot :: old(MayRun(a)) && a <= log.limit ==>
        if old(log.lives) == 0 then r == Err(Died) && log.calls == old(log.calls) && log.invocations == old(log.invocations) && attempts == old(attempts)
        else if old(Launched(log.invocations, a)) || a in old(log.stages) then
          && log.calls == old(log.calls) && log.invocations == old(log.invocations) && attempts == Opened(old(attempts), a)
          && Answered(a, old(log.invocations), old(log.stages), intact, old(log.lives) - 1, r)
        else
          && attempts == (if old(log.lives) == 1 then Opened(old(attempts), a) else old(attempts)[a := true])
          && CalledFor(a, isolated, outcome, old(log.lives) - 1, old(log.invocations), old(log.calls), log.invocations, log.calls, r)
    {
      hide Sound, Launched, AnyStarted, Answered, CalledFor;
      if !ready {
        return Err(NotReady);
      }
      var unfinished := log.Unfinished();
      if elsewhere || unfinished {
        return Err(Incomplete);
      }
      var attempt, conflict := ChooseAttempt();
      if conflict {
        return Err(AttemptExists);
      }
      if attempt > log.limit {
        return Err(LimitExhausted);
      }
      var alive := log.Step();
      if !alive {
        return Err(Died);
      }
      if attempt !in attempts {
        attempts := attempts[attempt := false];
      }
      r := RunAttempt(attempt, intact, isolated, outcome);
    }

    /** The attempt row is there: an attempt known is answered, a new one gets its worktree and its call. */
    method RunAttempt(attempt: Slot, intact: bool, isolated: bool, outcome: Outcome) returns (r: Result)
      requires log.Valid() && attempt <= log.limit && attempt in attempts
      modifies this`attempts, log
      ensures log.Valid()
      ensures log.calls == old(log.calls) || OneMore(attempt, outcome, log.limit, old(log.invocations), old(log.calls), log.calls)
      ensures r.Ok? ==> Gave(log.calls, r.slot, r.artifact)
      ensures old(Launched(log.invocations, attempt)) || attempt in old(log.stages) ==>
        && log.calls == old(log.calls) && log.invocations == old(log.invocations) && attempts == old(attempts)
        && Answered(attempt, old(log.invocations), old(log.stages), intact, old(log.lives), r)
      ensures !old(Launched(log.invocations, attempt)) && attempt !in old(log.stages) ==>
        && attempts == (if old(log.lives) == 0 then old(attempts) else old(attempts)[attempt := true])
        && CalledFor(attempt, isolated, outcome, old(log.lives), old(log.invocations), old(log.calls), log.invocations, log.calls, r)
    {
      hide Sound, Launched;
      var recovered := Recover(attempt, intact);
      if recovered.Some? {
        return recovered.value;
      }
      var alive := log.Step();
      if !alive {
        return Err(Died);
      }
      attempts := attempts[attempt := true];
      if !isolated {
        return Err(NotReady);
      }
      alive := log.Start(attempt);
      if !alive {
        return Err(Died);
      }
      r := log.Conclude(attempt, outcome, false);
    }

    /** An operator retires a failed attempt; the scheduler opens a new one. */
    method Reconcile(next: Slot)
      modifies this`reconciled
      ensures reconciled == Some(next)
    {
      reconciled := Some(next);
    }

    method OpenAttempt(attempt: Slot)
      modifies this`attempts
      ensures attempts == if attempt in old(attempts) then old(attempts) else old(attempts)[attempt := false]
    {
      if attempt !in attempts {
        attempts := attempts[attempt := false];
      }
    }
  }

  /** What an attempt already launched or recorded is answered: its artifact, recorded now if it was not, or that it failed. */
  ghost predicate Answered(attempt: Slot, invocations: seq<Invocation>, stages: map<Slot, Artifact>, intact: bool, lives: nat, r: Result) {
    if attempt in stages then r == if intact then Ok(attempt, stages[attempt]) else Err(ArtifactMissing)
    else
      forall k :: 0 <= k < |invocations| && invocations[k].slot == attempt && (forall j :: k < j < |invocations| ==> invocations[j].slot != attempt) ==>
        r == if invocations[k].status.Completed? then InvocationLog.Recorded(invocations[k], intact, lives) else Err(PriorFailed)
  }

  /** What a new attempt comes to, as far as the run lives: the worktree, the check before inference, the row, the call, its outcome. */
  ghost predicate CalledFor(attempt: Slot, isolated: bool, outcome: Outcome, lives: nat,
                            invocations: seq<Invocation>, calls: seq<Call>, invocations': seq<Invocation>, calls': seq<Call>, r: Result) {
    if lives == 0 || (isolated && lives == 1) then r == Err(Died) && invocations' == invocations && calls' == calls
    else if !isolated then r == Err(NotReady) && invocations' == invocations && calls' == calls
    else
      && invocations' == invocations + [Invocation(attempt, InvocationLog.StatusAfter(lives - 2, outcome, false))]
      && calls' == (if lives >= 3 then calls + [Call(attempt, outcome)] else calls)
      && r == InvocationLog.ResultAfter(lives - 2, attempt, outcome, false)
  }

  /** A call was added, for a slot within the limit that had never been launched. */
  ghost predicate OneMore(slot: Slot, outcome: Outcome, limit: nat, invocations: seq<Invocation>, before: seq<Call>, after: seq<Call>) {
    slot <= limit && !Launched(invocations, slot) && after == before + [Call(slot, outcome)]
  }

  datatype Turn =
    | Run(ready: bool, elsewhere: bool, intact: bool, isolated: bool, outcome: Outcome, lives: nat)
    | Reconciled(next: Slot)
    | Opened(attempt: Slot)

  function Runs(turns: seq<Turn>): nat {
    if turns == [] then 0 else Runs(turns[..|turns| - 1]) + if turns[|turns| - 1].Run? then 1 else 0
  }

  /**
    Over any history of runs, cut off anywhere, with operators and the scheduler
    in between: no attempt is called for twice, calls never outnumber the
    attempts allowed, and whatever an attempt returns it returns every time.
   */
  method History(stage: Implementation, turns: seq<Turn>) returns (results: seq<Result>)
    requires stage.log.Valid() && stage.log.calls == []
    modifies stage, stage.log
    ensures |results| == Runs(turns)
    ensures |stage.log.calls| <= stage.log.limit
    ensures forall j, k :: 0 <= j < k < |stage.log.calls| ==> stage.log.calls[j].slot != stage.log.calls[k].slot
    ensures forall i :: 0 <= i < |results| && results[i].Ok? ==> Gave(stage.log.calls, results[i].slot, results[i].artifact)
    ensures forall i, j :: 0 <= i < |results| && 0 <= j < |results| && results[i].Ok? && results[j].Ok? && results[i].slot == results[j].slot
              ==> results[i] == results[j]
  {
    var log := stage.log;
    results := [];
    for i := 0 to |turns|
      invariant |results| == Runs(turns[..i])
      invariant log.Valid()
      invariant forall k :: 0 <= k < |results| && results[k].Ok? ==> Gave(log.calls, results[k].slot, results[k].artifact)
    {
      hide Sound, AnyStarted;
      assert turns[..i + 1][..i] == turns[..i];
      match turns[i]
      case Run(ready, elsewhere, intact, isolated, outcome, lives) =>
        log.lives := lives;
        ghost var before := log.calls;
        var r := stage.Execute(ready, elsewhere, intact, isolated, outcome);
        assert forall c :: c in before ==> c in log.calls;
        results := results + [r];
      case Reconciled(next) => stage.Reconcile(next);
      case Opened(attempt) => stage.OpenAttempt(attempt);
    }
    assert turns[..|turns|] == turns;
    CallsFit(log.limit, log.invocations, log.stages, log.calls);
    forall i, j | 0 <= i < |results| && 0 <= j < |results| && results[i].Ok? && results[j].Ok? && results[i].slot == results[j].slot
      ensures results[i] == results[j]
    {
      OneAnswer(log.limit, log.invocations, log.stages, log.calls, results[i].slot, results[i].artifact, results[j].artifact);
    }
  }
}
