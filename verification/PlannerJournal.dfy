/**
  LocalDecompositionPlanner.propose_next: a journal of files around one call to
  the planner. Writing a file is two steps, creating it and filling it, and the
  process may die before any step; the lives given to a run are the number of
  steps it takes before it dies.
 */
module PlannerJournal {
  import opened Options
  import opened Decimals

  type Text = string
  type Plan = nat
  type Fingerprint = nat

  datatype File<+T> = Missing | Torn | Holds(content: T)

  /** What the planner is and how it is run; the sizing is recorded but not compared. */
  datatype Provenance = Provenance(identity: Text, sizing: nat)

  /** The result file: the exit code, and the response it was recorded for, which its hash stands for. */
  datatype Completion = Completion(returncode: int, response: Text)

  datatype Outcome = Exits(returncode: int, output: Text) | TimesOut | Fails

  datatype Call = Call(payload: Text, outcome: Outcome)

  datatype Failure =
    | Died | RequestConflicts | ProvenanceConflicts | OutcomeUnknown | ResultMalformed | NotSuccessful
    | EmptyResponse | InvalidPlan | BaselineMissing | BaselineMalformed | RepositoryMutated | PlannerFailed | PlannerTimeout

  datatype Result = Ok(plan: Plan) | Err(failure: Failure)

  /** strip() leaves nothing. */
  predicate Blank(text: Text) {
    forall c :: c in text ==> IsPythonSpace(c as int)
  }

  /** A file whose writing begins with step first, by a process that lives so many steps. */
  function Written<T>(lives: nat, first: nat, content: T): File<T> {
    if lives >= first + 1 then Holds(content) else if lives >= first then Torn else Missing
  }

  function Less(lives: nat, steps: nat): nat {
    if lives >= steps then lives - steps else 0
  }

  /** The artifact directory, the calls ever placed from it, and the steps the running process has left. */
  class Planner {
    /** The responses that parse and keep to the scope, with the plan each one is. */
    const plans: map<Text, Plan>
    var request: File<Text>
    var provenance: File<Provenance>
    var baseline: File<Fingerprint>
    var response: File<Text>
    var result: File<Completion>
    var calls: seq<Call>
    var lives: nat

    constructor (plans: map<Text, Plan>)
      ensures this.plans == plans && Valid() && calls == [] && lives == 0
      ensures request == Missing && provenance == Missing && baseline == Missing && response == Missing && result == Missing
    {
      this.plans := plans;
      request, provenance, baseline, response, result := Missing, Missing, Missing, Missing, Missing;
      calls, lives := [], 0;
    }

    predicate Prior() reads this {
      request != Missing || provenance != Missing || response != Missing || result != Missing
    }

    /** The plan the one call gave, if it gave one. */
    predicate Gave(plan: Plan) reads this {
      |calls| == 1 && match calls[0].outcome
        case Exits(returncode, output) => returncode == 0 && output in plans && plans[output] == plan
        case _ => false
    }

    ghost predicate Valid() reads this {
      && |calls| <= 1
      && (calls != [] ==> request == Holds(calls[0].payload) && provenance.Holds?)
      && (result != Missing ==> calls != [] && calls[0].outcome.Exits? && response == Holds(calls[0].outcome.output))
      && (result.Holds? ==> result.content == Completion(calls[0].outcome.returncode, calls[0].outcome.output))
    }

    method Step() returns (alive: bool)
      modifies this`lives
      ensures alive <==> old(lives) > 0
      ensures lives == if old(lives) > 0 then old(lives) - 1 else 0
    {
      alive := lives > 0;
      if alive {
        lives := lives - 1;
      }
    }

    /** What a replay of these files answers. */
    function Replayed(payload: Text, identity: Text, repository: Option<Fingerprint>): Result reads this {
      if request != Holds(payload) then Err(RequestConflicts)
      else if !provenance.Holds? || provenance.content.identity != identity then Err(ProvenanceConflicts)
      else if response == Missing || result == Missing then Err(OutcomeUnknown)
      else if !result.Holds? then Err(ResultMalformed)
      else if !response.Holds? || result.content != Completion(0, response.content) then Err(NotSuccessful)
      else if Blank(response.content) then Err(EmptyResponse)
      else if response.content !in plans then Err(InvalidPlan)
      else if repository == None then Ok(plans[response.content])
      else if baseline == Missing then Err(BaselineMissing)
      else if baseline == Torn then Err(BaselineMalformed)
      else if baseline.content != repository.value then Err(RepositoryMutated)
      else Ok(plans[response.content])
    }

    /** Files found: nothing is called, whatever they say. */
    method Replay(payload: Text, current: Provenance, repository: Option<Fingerprint>) returns (r: Result)
      requires Valid() && Prior()
      ensures r == Replayed(payload, current.identity, repository)
      ensures r.Ok? ==> Gave(r.plan) && request == Holds(payload)
      ensures r.Ok? && repository.Some? ==> baseline == Holds(repository.value)
    {
      if request != Holds(payload) {
        return Err(RequestConflicts);
      }
      if !provenance.Holds? {
        return Err(ProvenanceConflicts);
      }
      if provenance.content.(sizing := 0) != current.(sizing := 0) {
        return Err(ProvenanceConflicts);
      }
      if response == Missing || result == Missing {
        return Err(OutcomeUnknown);
      }
      if !result.Holds? {
        return Err(ResultMalformed);
      }
      if !response.Holds? || result.content != Completion(0, response.content) {
        return Err(NotSuccessful);
      }
      var raw := response.content;
      if Blank(raw) {
        return Err(EmptyResponse);
      }
      if raw !in plans {
        return Err(InvalidPlan);
      }
      if repository.Some? {
        if baseline == Missing {
          return Err(BaselineMissing);
        }
        if baseline == Torn {
          return Err(BaselineMalformed);
        }
        if baseline.content != repository.value {
          return Err(RepositoryMutated);
        }
      }
      r := Ok(plans[raw]);
    }

    /** The steps it takes to write the files that must be there before the call. */
    static function Preparing(before: Option<Fingerprint>): nat {
      if before.Some? then 6 else 4
    }

    /** The files that must be there before the call: seven steps at most lead to it. */
    method Prepare(payload: Text, current: Provenance, before: Option<Fingerprint>) returns (alive: bool)
      requires Valid() && !Prior()
      modifies this
      ensures Valid() && calls == old(calls) && response == Missing && result == Missing
      ensures request == Written(old(lives), 1, payload) && provenance == Written(old(lives), 3, current)
      ensures baseline == if before.Some? && old(lives) >= 5 then Written(old(lives), 5, before.value) else old(baseline)
      ensures alive <==> old(lives) >= Preparing(before)
      ensures lives == Less(old(lives), Preparing(before))
    {
      alive := Step();
      if !alive {
        return;
      }
      request := Torn;
      alive := Step();
      if !alive {
        return;
      }
      request := Holds(payload);
      alive := Step();
      if !alive {
        return;
      }
      provenance := Torn;
      alive := Step();
      if !alive {
        return;
      }
      provenance := Holds(current);
      if before.Some? {
        alive := Step();
        if !alive {
          return;
        }
        baseline := Torn;
        alive := Step();
        if !alive {
          return;
        }
        baseline := Holds(before.value);
      }
    }

    /** The output and then its completion are written down. */
    method Keep(returncode: int, output: Text) returns (alive: bool)
      requires Valid() && |calls| == 1 && calls[0].outcome == Exits(returncode, output) && response == Missing && result == Missing
      modifies this`lives, this`response, this`result
      ensures Valid()
      ensures alive <==> old(lives) >= 4
      ensures response == Written(old(lives), 1, output) && result == Written(old(lives), 3, Completion(returncode, output))
    {
      alive := Step();
      if !alive {
        return;
      }
      response := Torn;
      alive := Step();
      if !alive {
        return;
      }
      response := Holds(output);
      alive := Step();
      if !alive {
        return;
      }
      result := Torn;
      alive := Step();
      if !alive {
        return;
      }
      result := Holds(Completion(returncode, output));
    }

    predicate SameFiles(q: File<Text>, p: File<Provenance>, b: File<Fingerprint>, a: File<Text>, c: File<Completion>) reads this {
      request == q && provenance == p && baseline == b && response == a && result == c
    }

    /** What a run answers that lives to the end of its call: a plan only for a call that went well, parsed, and left the repository alone. */
    function Answer(outcome: Outcome, before: Option<Fingerprint>, after: Fingerprint): Result {
      match outcome
      case TimesOut => Err(PlannerTimeout)
      case Fails => Err(PlannerFailed)
      case Exits(returncode, output) =>
        if returncode != 0 then Err(PlannerFailed)
        else if Blank(output) then Err(EmptyResponse)
        else if output !in plans then Err(InvalidPlan)
        else if before.Some? && before.value != after then Err(RepositoryMutated)
        else Ok(plans[output])
    }

    /**
      propose_next, with the repository as it stands before and after the call.
      A call is placed exactly when the directory holds no file of an earlier run
      and this run lives that long; so one call is all a directory ever sees. A
      plan that is returned is the one the call gave.
     */
    method ProposeNext(payload: Text, current: Provenance, before: Option<Fingerprint>, after: Fingerprint, outcome: Outcome) returns (r: Result)
      requires Valid()
      modifies this
      ensures Valid()
      ensures calls == if !old(Prior()) && old(lives) > Preparing(before) then [Call(payload, outcome)] else old(calls)
      ensures r.Ok? ==> Gave(r.plan) && request == Holds(payload) && Prior()
      ensures r.Ok? && before.Some? ==> baseline == Holds(after)
      // A directory with files in it.
      ensures old(Prior()) ==> r == old(Replayed(payload, current.identity, if before.Some? then Some(after) else None))
      ensures old(Prior()) ==> SameFiles(old(request), old(provenance), old(baseline), old(response), old(result))
      // An empty one: what is in it when the run ends, wherever it dies, and what a run that lives answers.
      ensures !old(Prior()) ==> request == Written(old(lives), 1, payload) && provenance == Written(old(lives), 3, current)
      ensures !old(Prior()) && before.Some? && old(lives) >= 5 ==> baseline == Written(old(lives), 5, before.value)
      ensures !old(Prior()) && outcome.Exits? ==>
        var lived := Less(old(lives), Preparing(before) + 1);
        response == Written(lived, 1, outcome.output) && result == Written(lived, 3, Completion(outcome.returncode, outcome.output))
      ensures !old(Prior()) && !outcome.Exits? ==> response == Missing && result == Missing
      ensures !old(Prior()) && old(lives) < Preparing(before) + (if outcome.Exits? then 5 else 1) ==> r == Err(Died)
      ensures !old(Prior()) && old(lives) >= Preparing(before) + (if outcome.Exits? then 5 else 1) ==> r == Answer(outcome, before, after)
    {
      if Prior() {
        r := Replay(payload, current, if before.Some? then Some(after) else None);
        return;
      }
      var alive := Prepare(payload, current, before);
      if !alive {
        return Err(Died);
      }
      alive := Step();
      if !alive {
        return Err(Died);
      }
      calls := calls + [Call(payload, outcome)];
      match outcome
      case TimesOut => r := Err(PlannerTimeout);
      case Fails => r := Err(PlannerFailed);
      case Exits(returncode, output) =>
        alive := Keep(returncode, output);
        if !alive {
          return Err(Died);
        }
        if returncode != 0 {
          return Err(PlannerFailed);
        }
        if Blank(output) {
          return Err(EmptyResponse);
        }
        if output !in plans {
          return Err(InvalidPlan);
        }
        if before.Some? && before.value != after {
          return Err(RepositoryMutated);
        }
        r := Ok(plans[output]);
    }
  }

  /** One run of the planner: what it is asked, what it would be told, and how long it lives. */
  datatype Run = Run(payload: Text, current: Provenance, before: Option<Fingerprint>, after: Fingerprint, outcome: Outcome, lives: nat)

  predicate LivesThrough(run: Run) {
    run.lives >= Planner.Preparing(run.before) + if run.outcome.Exits? then 5 else 1
  }

  /** A plan returned for a repository. */
  predicate PlanFor(run: Run, result: Result) {
    result.Ok? && run.before.Some?
  }

  /** The same request as an earlier run's, for no repository or for the one that run found. */
  predicate AsksAgain(run: Run, earlier: Run) {
    && run.payload == earlier.payload && run.current.identity == earlier.current.identity
    && (run.before.Some? ==> earlier.before.Some? && run.after == earlier.before.value)
  }

  /**
    Any number of runs over one directory, asked anything and cut off anywhere:
    at most one call is ever placed, all plans returned are one plan, and all
    that are returned for a repository are returned for one and the same state of
    it. A first run that lives answers as its call went, and if with a plan, so
    does every later run that asks the same.
   */
  method RunMany(planner: Planner, runs: seq<Run>) returns (results: seq<Result>)
    requires planner.Valid() && planner.calls == []
    modifies planner
    ensures planner.Valid() && |planner.calls| <= 1 && |results| == |runs|
    ensures forall i :: 0 <= i < |runs| && results[i].Ok? ==> planner.Gave(results[i].plan) && planner.calls[0].payload == runs[i].payload
    ensures forall i, j :: 0 <= i < |runs| && 0 <= j < |runs| && results[i].Ok? && results[j].Ok? ==> results[i] == results[j]
    ensures forall i, j | 0 <= i < |runs| && 0 <= j < |runs| && PlanFor(runs[i], results[i]) && PlanFor(runs[j], results[j]) ::
      runs[i].after == runs[j].after
    ensures runs != [] && !old(planner.Prior()) && LivesThrough(runs[0]) ==>
      results[0] == planner.Answer(runs[0].outcome, runs[0].before, runs[0].after)
    ensures runs != [] && !old(planner.Prior()) && LivesThrough(runs[0]) && results[0].Ok? ==>
      forall i :: 0 <= i < |runs| && AsksAgain(runs[i], runs[0]) ==> results[i] == results[0]
  {
    results := [];
    for i := 0 to |runs|
      invariant planner.Valid() && |results| == i
      invariant forall k :: 0 <= k < i && results[k].Ok? ==> planner.Gave(results[k].plan) && planner.calls[0].payload == runs[k].payload
      invariant forall k :: 0 <= k < i && results[k].Ok? && runs[k].before.Some? ==> planner.baseline == Holds(runs[k].after)
      invariant forall k :: 0 <= k < i && results[k].Ok? ==> planner.Prior()
      invariant i > 0 && !old(planner.Prior()) && LivesThrough(runs[0]) ==> results[0] == planner.Answer(runs[0].outcome, runs[0].before, runs[0].after)
      invariant i == 0 ==> planner.Prior() == old(planner.Prior())
      invariant i > 0 && !old(planner.Prior()) && LivesThrough(runs[0]) && results[0].Ok? ==>
        && planner.Replayed(runs[0].payload, runs[0].current.identity, None) == results[0]
        && (runs[0].before.Some? ==> planner.baseline == Holds(runs[0].before.value))
        && forall k :: 0 <= k < i && AsksAgain(runs[k], runs[0]) ==> results[k] == results[0]
    {
      planner.lives := runs[i].lives;
      ghost var before := planner.calls;
      var r := planner.ProposeNext(runs[i].payload, runs[i].current, runs[i].before, runs[i].after, runs[i].outcome);
      assert before != [] ==> planner.calls == before;
      results := results + [r];
    }
  }
}
