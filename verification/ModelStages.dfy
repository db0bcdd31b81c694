/**
  The stages of the controller that call a model on their own behalf: every
  call is preceded by a durable invocation row and followed by its outcome. A
  run may die before any durable step; the lives given to it are the number of
  steps it takes. One controller at a time works on a ticket.
 */
module ModelStages {
  import opened Options

  type Artifact = string

  /** What a call is placed for, numbered from 1: the attempt of an implementation, the launch of a review. */
  type Slot = n: nat | n >= 1 witness 1

  datatype Outcome = Answers(artifact: Artifact) | TimesOut | Errs | Malformed

  datatype Status = Started | Completed(artifact: Artifact) | Timeout | ProcessError | MalformedOutput

  datatype Failure =
    | Died | NotReady | Incomplete | AttemptExists | LimitExhausted | PriorFailed | ArtifactMissing | CallFailed
    | NotAuthorized | BudgetExhausted | Conflict

  datatype Result = Ok(slot: Slot, artifact: Artifact) | Err(failure: Failure)

  /** The outcome finish_model_invocation records. */
  function StatusOf(outcome: Outcome): Status {
    match outcome
    case Answers(artifact) => Completed(artifact)
    case TimesOut => Timeout
    case Errs => ProcessError
    case Malformed => MalformedOutput
  }

  datatype Invocation = Invocation(slot: Slot, status: Status)

  datatype Call = Call(slot: Slot, outcome: Outcome)

  /** Distinct numbers from 1 to bound are at most bound many. */
  lemma {:induction false} DistinctNumbersFit(numbers: set<nat>, bound: nat)
    requires forall n :: n in numbers ==> 1 <= n <= bound
    ensures |numbers| <= bound
    decreases bound
  {
    if numbers != {} {
      var n :| n in numbers;
      if bound in numbers {
        DistinctNumbersFit(numbers - {bound}, bound - 1);
      } else {
        DistinctNumbersFit(numbers, bound - 1);
      }
    }
  }

  function Slots(calls: seq<Call>): set<nat> {
    set k | 0 <= k < |calls| :: calls[k].slot
  }

  lemma {:induction false} DistinctCallsFit(calls: seq<Call>, bound: nat)
    requires forall j, k :: 0 <= j < k < |calls| ==> calls[j].slot != calls[k].slot
    requires forall k :: 0 <= k < |calls| ==> calls[k].slot <= bound
    ensures |calls| <= bound
  {
    SlotsCount(calls);
    DistinctNumbersFit(Slots(calls), bound);
  }

  lemma {:induction false} SlotsCount(calls: seq<Call>)
    requires forall j, k :: 0 <= j < k < |calls| ==> calls[j].slot != calls[k].slot
    ensures |Slots(calls)| == |calls|
    decreases |calls|
  {
    if calls != [] {
      var front, last := calls[..|calls| - 1], calls[|calls| - 1].slot;
      SlotsCount(front);
      assert Slots(calls) == Slots(front) + {last};
      assert last !in Slots(front);
    }
  }

  // ----- What the rows of one ticket say -----

  predicate Launched(invocations: seq<Invocation>, slot: Slot) {
    exists k :: 0 <= k < |invocations| && invocations[k].slot == slot
  }

  predicate AnyStarted(invocations: seq<Invocation>) {
    exists k :: 0 <= k < |invocations| && invocations[k].status == Started
  }

  /** A call was answered with this artifact. */
  predicate Gave(calls: seq<Call>, slot: Slot, artifact: Artifact) {
    Call(slot, Answers(artifact)) in calls
  }

  /** One row a slot, and a completed one holds what its call was answered with. */
  ghost predicate RowsSound(limit: nat, invocations: seq<Invocation>, calls: seq<Call>) {
    && (forall j, k :: 0 <= j < k < |invocations| ==> invocations[j].slot != invocations[k].slot)
    && (forall k :: 0 <= k < |invocations| ==> invocations[k].slot <= limit)
    && (forall k :: 0 <= k < |invocations| && invocations[k].status.Completed? ==> Gave(calls, invocations[k].slot, invocations[k].status.artifact))
  }

  /** One call a slot, and none without its row. */
  ghost predicate CallsSound(invocations: seq<Invocation>, calls: seq<Call>) {
    && (forall j, k :: 0 <= j < k < |calls| ==> calls[j].slot != calls[k].slot)
    && (forall k :: 0 <= k < |calls| ==> Launched(invocations, calls[k].slot))
  }

  ghost predicate StagesSound(stages: map<Slot, Artifact>, calls: seq<Call>) {
    forall a :: a in stages ==> Gave(calls, a, stages[a])
  }

  ghost predicate Sound(limit: nat, invocations: seq<Invocation>, stages: map<Slot, Artifact>, calls: seq<Call>) {
    RowsSound(limit, invocations, calls) && CallsSound(invocations, calls) && StagesSound(stages, calls)
  }

  lemma NewRowKeeps(limit: nat, invocations: seq<Invocation>, stages: map<Slot, Artifact>, calls: seq<Call>, slot: Slot)
    requires Sound(limit, invocations, stages, calls) && slot <= limit && !Launched(invocations, slot)
    ensures Sound(limit, invocations + [Invocation(slot, Started)], stages, calls)
    ensures Launched(invocations + [Invocation(slot, Started)], slot)
    ensures forall k :: 0 <= k < |calls| ==> calls[k].slot != slot
  {
    var rows := invocations + [Invocation(slot, Started)];
    assert rows[|invocations|].slot == slot;
    forall k | 0 <= k < |calls| ensures calls[k].slot != slot && Launched(rows, calls[k].slot) {
      assert Launched(invocations, calls[k].slot);
      var j :| 0 <= j < |invocations| && invocations[j].slot == calls[k].slot;
      assert rows[j].slot == calls[k].slot;
    }
  }

  lemma NewCallKeeps(limit: nat, invocations: seq<Invocation>, stages: map<Slot, Artifact>, calls: seq<Call>, slot: Slot, outcome: Outcome)
    requires Sound(limit, invocations, stages, calls) && Launched(invocations, slot)
    requires forall k :: 0 <= k < |calls| ==> calls[k].slot != slot
    ensures Sound(limit, invocations, stages, calls + [Call(slot, outcome)])
    ensures Call(slot, outcome) in calls + [Call(slot, outcome)]
  {
    var more := calls + [Call(slot, outcome)];
    assert more[|calls|] == Call(slot, outcome);
    assert forall c :: c in calls ==> c in more;
  }

  /** A row takes the outcome its call had, or one that claims no artifact. */
  lemma FinishedRowKeeps(limit: nat, invocations: seq<Invocation>, stages: map<Slot, Artifact>, calls: seq<Call>, at: nat, status: Status)
    requires Sound(limit, invocations, stages, calls) && at < |invocations|
    requires status.Completed? ==> Gave(calls, invocations[at].slot, status.artifact)
    ensures Sound(limit, invocations[at := invocations[at].(status := status)], stages, calls)
    ensures Launched(invocations[at := invocations[at].(status := status)], invocations[at].slot)
  {
    var rows := invocations[at := invocations[at].(status := status)];
    assert rows[at].slot == invocations[at].slot;
    assert forall k :: 0 <= k < |rows| ==> rows[k].slot == invocations[k].slot;
    forall k | 0 <= k < |calls| ensures Launched(rows, calls[k].slot) {
      assert Launched(invocations, calls[k].slot);
      var j :| 0 <= j < |invocations| && invocations[j].slot == calls[k].slot;
      assert rows[j].slot == calls[k].slot;
    }
  }

  /** A slot has been called for once, so its answers are one answer. */
  lemma OneAnswer(limit: nat, invocations: seq<Invocation>, stages: map<Slot, Artifact>, calls: seq<Call>, slot: Slot, a: Artifact, b: Artifact)
    requires Sound(limit, invocations, stages, calls) && Gave(calls, slot, a) && Gave(calls, slot, b)
    ensures a == b
  {
    var j :| 0 <= j < |calls| && calls[j] == Call(slot, Answers(a));
    var k :| 0 <= k < |calls| && calls[k] == Call(slot, Answers(b));
  }

  /** Under sound rows, calls cannot outnumber the slots. */
  lemma CallsFit(limit: nat, invocations: seq<Invocation>, stages: map<Slot, Artifact>, calls: seq<Call>)
    requires Sound(limit, invocations, stages, calls)
    ensures |calls| <= limit
  {
    forall k | 0 <= k < |calls| ensures calls[k].slot <= limit {
      assert Launched(invocations, calls[k].slot);
    }
    DistinctCallsFit(calls, limit);
  }

  /** The invocation rows of one stage, its recorded artifacts, and the calls ever placed. */
  class InvocationLog {
    const limit: nat
    var invocations: seq<Invocation>
    /** model_stage_artifacts. */
    var stages: map<Slot, Artifact>
    var calls: seq<Call>
    var lives: nat

    constructor (limit: nat)
      ensures Valid() && this.limit == limit && calls == [] && invocations == [] && stages == map[] && lives == 0
    {
      this.limit := limit;
      invocations, stages, calls, lives := [], map[], [], 0;
    }

    ghost predicate Valid() reads this`invocations, this`stages, this`calls {
      Sound(limit, invocations, stages, calls)
    }

    method Step() returns (alive: bool)
      modifies this`lives
      ensures alive <==> old(lives) > 0
      ensures lives == if old(lives) > 0 then old(lives) - 1 else 0
    {
      alive := lives > 0;
      if alive {
        lives := lives - 1;
      }
    }

    /** invocation_for_stage: the last row for the slot. */
    method InvocationFor(slot: Slot) returns (at: Option<nat>)
      ensures at.Some? ==> at.value < |invocations| && invocations[at.value].slot == slot
      ensures at.Some? ==> forall k :: at.value < k < |invocations| ==> invocations[k].slot != slot
      ensures at == None <==> !Launched(invocations, slot)
    {
      at := None;
      for k := 0 to |invocations|
        invariant at.Some? ==> at.value < k && invocations[at.value].slot == slot && forall j :: at.value < j < k ==> invocations[j].slot != slot
        invariant at == None ==> forall j :: 0 <= j < k ==> invocations[j].slot != slot
      {
        if invocations[k].slot == slot {
          at := Some(k);
        }
      }
    }

    /** incomplete_model_invocations. */
    method Unfinished() returns (any: bool)
      ensures any <==> AnyStarted(invocations)
    {
      any := false;
      for k := 0 to |invocations|
        invariant any <==> exists j :: 0 <= j < k && invocations[j].status == Started
      {
        if invocations[k].status == Started {
          any := true;
        }
      }
    }

    /** start_model_invocation: the row that says a call may be placed. */
    method Start(slot: Slot) returns (alive: bool)
      requires Valid() && slot <= limit && !Launched(invocations, slot)
      modifies this`invocations, this`lives
      ensures Valid()
      ensures alive <==> old(lives) > 0
      ensures lives == if alive then old(lives) - 1 else 0
      ensures invocations == if alive then old(invocations) + [Invocation(slot, Started)] else old(invocations)
      ensures alive ==> Launched(invocations, slot) && forall k :: 0 <= k < |calls| ==> calls[k].slot != slot
    {
      hide Sound, Launched;
      alive := Step();
      if alive {
        NewRowKeeps(limit, invocations, stages, calls, slot);
        invocations := invocations + [Invocation(slot, Started)];
      }
    }

    /** What the row of a call says when a run ends that lived so many steps from the call on. */
    static function StatusAfter(lived: nat, outcome: Outcome, abandoned: bool): Status {
      if lived == 0 then Started
      else if abandoned then ProcessError
      else if lived == 1 then Started
      else StatusOf(outcome)
    }

    /** And what the run answers: its result only if it lived to record it. */
    static function ResultAfter(lived: nat, slot: Slot, outcome: Outcome, abandoned: bool): Result {
      if lived == 0 then Err(Died)
      else if abandoned then Err(Conflict)
      else if lived == 1 then Err(Died)
      else if !outcome.Answers? then Err(CallFailed)
      else if lived == 2 then Err(Died)
      else Ok(slot, outcome.artifact)
    }

    /** The call under a row just started; declared stale meanwhile, its outcome cannot be recorded. */
    method Conclude(slot: Slot, outcome: Outcome, abandoned: bool) returns (r: Result)
      requires Valid() && invocations != [] && invocations[|invocations| - 1] == Invocation(slot, Started)
      requires Launched(invocations, slot) && slot !in stages && forall k :: 0 <= k < |calls| ==> calls[k].slot != slot
      modifies this`invocations, this`stages, this`calls, this`lives
      ensures Valid() && Launched(invocations, slot)
      ensures |invocations| == |old(invocations)| && forall k :: 0 <= k < |invocations| - 1 ==> invocations[k] == old(invocations)[k]
      ensures invocations[|invocations| - 1].slot == slot
      ensures calls == if old(lives) >= 1 then old(calls) + [Call(slot, outcome)] else old(calls)
      ensures invocations[|invocations| - 1].status == StatusAfter(old(lives), outcome, abandoned)
      ensures stages == if old(lives) >= 3 && !abandoned && outcome.Answers? then old(stages)[slot := outcome.artifact] else old(stages)
      ensures r == ResultAfter(old(lives), slot, outcome, abandoned)
      ensures r.Ok? ==> slot in stages && Gave(calls, slot, r.artifact)
    {
      hide Sound, Launched;
      var alive := Step();
      if !alive {
        return Err(Died);
      }
      NewCallKeeps(limit, invocations, stages, calls, slot, outcome);
      calls := calls + [Call(slot, outcome)];
      if abandoned {
        Abandon(|invocations| - 1);
        return Err(Conflict);
      }
      alive := Step();
      if !alive {
        return Err(Died);
      }
      Finish(slot, outcome);
      if !outcome.Answers? {
        return Err(CallFailed);
      }
      alive := Step();
      if !alive {
        return Err(Died);
      }
      Record(slot, outcome.artifact);
      r := Ok(slot, outcome.artifact);
    }

    /** finish_model_invocation of the row just started. */
    method Finish(slot: Slot, outcome: Outcome)
      requires Valid() && invocations != [] && invocations[|invocations| - 1] == Invocation(slot, Started)
      requires Call(slot, outcome) in calls
      modifies this`invocations
      ensures Valid() && Launched(invocations, slot)
      ensures invocations == old(invocations)[|old(invocations)| - 1 := Invocation(slot, StatusOf(outcome))]
    {
      var last := |invocations| - 1;
      FinishedRowKeeps(limit, invocations, stages, calls, last, StatusOf(outcome));
      hide Sound;
      invocations := invocations[last := Invocation(slot, StatusOf(outcome))];
      assert invocations[last].slot == slot;
    }

    /** recover_stale_review_invocation. */
    method Abandon(at: nat)
      requires Valid() && at < |invocations|
      modifies this`invocations
      ensures |invocations| == |old(invocations)| && Valid()
      ensures invocations[at].slot == old(invocations)[at].slot && Launched(invocations, invocations[at].slot)
      ensures invocations == if old(invocations)[at].status == Started then old(invocations)[at := old(invocations)[at].(status := ProcessError)] else old(invocations)
    {
      if invocations[at].status == Started {
        FinishedRowKeeps(limit, invocations, stages, calls, at, ProcessError);
        hide Sound;
        invocations := invocations[at := invocations[at].(status := ProcessError)];
      }
    }

    /** record_model_stage: the first artifact recorded stays. */
    method Record(slot: Slot, artifact: Artifact)
      requires Valid() && Call(slot, Answers(artifact)) in calls
      modifies this`stages
      ensures Valid()
      ensures stages == if slot in old(stages) then old(stages) else old(stages)[slot := artifact]
    {
      hide RowsSound, CallsSound;
      if slot !in stages {
        stages := stages[slot := artifact];
      }
    }

    static function Recorded(row: Invocation, intact: bool, lives: nat): Result
      requires row.status.Completed?
    {
      if !intact then Err(ArtifactMissing) else if lives == 0 then Err(Died) else Ok(row.slot, row.status.artifact)
    }

    /** A completed row whose artifact was not recorded: record it now. */
    method RecordCompleted(at: nat, intact: bool) returns (r: Result)
      requires Valid() && at < |invocations| && invocations[at].status.Completed?
      modifies this`stages, this`lives
      ensures Valid()
      ensures stages == if r.Ok? && invocations[at].slot !in old(stages) then old(stages)[invocations[at].slot := invocations[at].status.artifact] else old(stages)
      ensures r == Recorded(invocations[at], intact, old(lives))
      ensures r.Ok? ==> Gave(calls, r.slot, r.artifact)
    {
      hide CallsSound;
      if !intact {
        return Err(ArtifactMissing);
      }
      var alive := Step();
      if !alive {
        return Err(Died);
      }
      var artifact := invocations[at].status.artifact;
      Record(invocations[at].slot, artifact);
      r := Ok(invocations[at].slot, artifact);
    }
  }
}
