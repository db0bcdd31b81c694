/**
  SchedulerDaemon: its counters, which stop at the largest integer SQLite holds,
  against a log of what every tick came to, and the waits between ticks.
 */
module Daemon {
  import opened Options

  const SQLITE_INT_MAX: nat := 0x7FFF_FFFF_FFFF_FFFF

  function Clamp(n: nat): nat {
    if n < SQLITE_INT_MAX then n else SQLITE_INT_MAX
  }

  // ----- Waits -----

  function Pow2(n: nat): (p: real)
    ensures p >= 1.0
  {
    if n == 0 then 1.0 else 2.0 * Pow2(n - 1)
  }

  /** Above this a float is infinite; below its inverse times 2^-50 a positive one is none. */
  predicate IsDelay(x: real) {
    x == 0.0 || (1.0 / Pow2(1074) <= x < Pow2(1024))
  }

  function Min(a: real, b: real): real {
    if a <= b then a else b
  }

  /** _saturating_exponential_backoff: doubling that overflows gives the maximum. */
  function Backoff(base: real, exponent: nat, maximum: real): real {
    if base == 0.0 || maximum == 0.0 then 0.0
    else
      var scaled := base * Pow2(exponent);
      if scaled >= Pow2(1024) then maximum else Min(maximum, scaled)
  }

  /** The wait before the counters saturate: doubled with every failure in a row, up to the maximum. */
  function Delay(base: real, k: nat, maximum: real): real
    requires k >= 1
  {
    Min(maximum, base * Pow2(k - 1))
  }

  lemma {:induction false} PowersAdd(m: nat, n: nat)
    ensures Pow2(m + n) == Pow2(m) * Pow2(n)
    decreases n
  {
    if n > 0 {
      PowersAdd(m, n - 1);
    }
  }

  lemma PowersGrow(m: nat, n: nat)
    requires m <= n
    ensures Pow2(m) <= Pow2(n)
  {
    PowersAdd(m, n - m);
    Scales(Pow2(m), 1.0, Pow2(n - m));
  }

  lemma Scales(x: real, a: real, b: real)
    requires x >= 0.0 && a <= b
    ensures x * a <= x * b
  {
  }

  /** Overflow makes no difference: the wait is the smaller of the maximum and the doubled base. */
  lemma BackoffIsDelay(base: real, k: nat, maximum: real)
    requires k >= 1 && IsDelay(base) && IsDelay(maximum)
    ensures Backoff(base, k - 1, maximum) == Delay(base, k, maximum)
  {
    hide Pow2;
    if base > 0.0 {
      Scales(base, 1.0, Pow2(k - 1));
    }
  }

  lemma Cancels(a: real, b: real)
    requires a > 0.0
    ensures (1.0 / a) * (a * b) == b
  {
  }

  /** What is at least the inverse of a passes b when multiplied by a and b. */
  lemma PassesWhenScaled(x: real, a: real, b: real, y: real)
    requires a > 0.0 && b > 0.0 && x >= 1.0 / a && y >= a * b
    ensures x * y >= b
  {
    Cancels(a, b);
    Scales(a * b, 1.0 / a, x);
    Scales(x, a * b, y);
  }

  /** So much doubling passes any maximum a float can be. */
  lemma DoubledPastMaximum(base: real, n: nat, maximum: real)
    requires base > 0.0 && IsDelay(base) && IsDelay(maximum) && n >= 2098
    ensures base * Pow2(n) >= maximum
  {
    hide Pow2;
    PowersGrow(1074 + 1024, n);
    PowersAdd(1074, 1024);
    PassesWhenScaled(base, Pow2(1074), Pow2(1024), Pow2(n));
  }

  /** A counter that has saturated gives the wait the true count would give. */
  lemma SaturationIsUnseen(base: real, k: nat, maximum: real)
    requires k >= 1 && IsDelay(base) && IsDelay(maximum)
    ensures Backoff(base, Clamp(k) - 1, maximum) == Delay(base, k, maximum)
  {
    hide Pow2;
    BackoffIsDelay(base, Clamp(k), maximum);
    if k > SQLITE_INT_MAX && base > 0.0 {
      DoubledPastMaximum(base, k - 1, maximum);
      DoubledPastMaximum(base, SQLITE_INT_MAX - 1, maximum);
    }
  }

  /** Waits within a streak never shrink and never pass the maximum. */
  lemma DelaysGrow(base: real, j: nat, k: nat, maximum: real)
    requires 1 <= j <= k && base >= 0.0
    ensures Delay(base, j, maximum) <= Delay(base, k, maximum) <= maximum
  {
    hide Pow2, Min;
    PowersGrow(j - 1, k - 1);
    Scales(base, Pow2(j - 1), Pow2(k - 1));
    MinGrows(base * Pow2(j - 1), base * Pow2(k - 1), maximum);
  }

  lemma MinGrows(a: real, b: real, maximum: real)
    requires a <= b
    ensures Min(maximum, a) <= Min(maximum, b) <= maximum
  {
  }

  /** The wait starts at the base and doubles with every further failure, up to the maximum. */
  lemma DelayDoubles(base: real, k: nat, maximum: real)
    requires k >= 1 && 0.0 <= base && 0.0 <= maximum
    ensures Delay(base, 1, maximum) == Min(maximum, base)
    ensures Delay(base, k + 1, maximum) == Min(maximum, 2.0 * Delay(base, k, maximum))
  {
    assert base * Pow2(k) == 2.0 * (base * Pow2(k - 1));
  }

  // ----- The log -----

  datatype Outcome = Idle | NoWork | Busy | Paused | Undispatchable | External | Progress

  /** seen is false for a tick that a stop overtook before it was counted. */
  datatype Tick = Succeeded(outcome: Outcome, seen: bool) | Failed

  function Successes(log: seq<Tick>): nat {
    if log == [] then 0 else Successes(log[..|log| - 1]) + if log[|log| - 1].Succeeded? then 1 else 0
  }

  function Errors(log: seq<Tick>): nat {
    if log == [] then 0 else Errors(log[..|log| - 1]) + if log[|log| - 1].Failed? then 1 else 0
  }

  /** The ticks counted as having one of these outcomes. */
  function Seen(log: seq<Tick>, outcomes: set<Outcome>): nat {
    if log == [] then 0
    else
      var last := log[|log| - 1];
      Seen(log[..|log| - 1], outcomes) + if last.Succeeded? && last.seen && last.outcome in outcomes then 1 else 0
  }

  /** The failures at the end of the log. */
  function ErrorStreak(log: seq<Tick>): nat {
    if log == [] || !log[|log| - 1].Failed? then 0 else ErrorStreak(log[..|log| - 1]) + 1
  }

  /** The undispatchable ticks at the end of the log, failures left aside. */
  function UndispatchableStreak(log: seq<Tick>): nat {
    if log == [] then 0
    else
      var front, last := log[..|log| - 1], log[|log| - 1];
      if last.Failed? then UndispatchableStreak(front)
      else if last.outcome == Undispatchable then UndispatchableStreak(front) + 1
      else 0
  }

  lemma {:induction false} EveryTickCounted(log: seq<Tick>)
    ensures |log| == Successes(log) + Errors(log)
    ensures Seen(log, {Idle, NoWork}) + Seen(log, {Busy}) + Seen(log, {Paused}) <= Successes(log)
    decreases |log|
  {
    if log != [] {
      EveryTickCounted(log[..|log| - 1]);
    }
  }

  lemma {:induction false} StreakIsTrailing(log: seq<Tick>)
    ensures ErrorStreak(log) <= |log|
    ensures forall i :: |log| - ErrorStreak(log) <= i < |log| ==> log[i].Failed?
    ensures ErrorStreak(log) < |log| ==> log[|log| - ErrorStreak(log) - 1].Succeeded?
    decreases |log|
  {
    if log != [] {
      StreakIsTrailing(log[..|log| - 1]);
    }
  }

  // ----- The daemon -----

  datatype Found = FoundIdle | FoundNoWork | FoundBusy | FoundPaused | FoundProgress

  datatype External = ExternalRaises | Dispatched | AuthorizedUndispatchable | NoAuthorizedWork

  /** When a stop is asked for: not, before the tick is counted, before it sleeps, or after. */
  datatype Stop = NoStop | BeforeCounting | BeforeSleeping | AfterSleeping

  /** What a tick meets: the scheduler's outcome or its failure, the external runner if there is one, a stop, a ledger that cannot be written. */
  datatype Input = Input(scheduler: Option<Found>, external: Option<External>, stop: Stop, persistFails: bool)

  datatype Settings = Settings(errorBase: real, errorMax: real, undispatchableBase: real, undispatchableMax: real, idleSleep: real, busySleep: real)

  predicate SettingsOk(s: Settings) {
    IsDelay(s.errorBase) && IsDelay(s.errorMax) && IsDelay(s.undispatchableBase) && IsDelay(s.undispatchableMax)
  }

  /** The daemon_status row: the counters as last written down. */
  datatype Row = Row(iterations: nat, successful: nat, idle: nat, busy: nat, paused: nat, transientErrors: nat, consecutiveErrors: nat, consecutiveUndispatchable: nat)

  /** The row for these ticks. */
  function RowOf(ticks: seq<Tick>): Row {
    Row(Clamp(|ticks|), Clamp(Successes(ticks)), Clamp(Seen(ticks, {Idle, NoWork})), Clamp(Seen(ticks, {Busy})), Clamp(Seen(ticks, {Paused})),
        Clamp(Errors(ticks)), Clamp(ErrorStreak(ticks)), Clamp(UndispatchableStreak(ticks)))
  }

  class SchedulerDaemon {
    const s: Settings
    var iterations: nat
    var successful: nat
    var idle: nat
    var busy: nat
    var paused: nat
    var transientErrors: nat
    var consecutiveErrors: nat
    var consecutiveUndispatchable: nat
    var stop: bool
    /** How long the last tick slept. */
    var slept: Option<real>
    ghost var log: seq<Tick>
    /** The row as last written, unless it no longer reads back. */
    var saved: Option<Row>
    /** The ticks up to the last time the row was written. */
    ghost var savedLog: seq<Tick>

    constructor (s: Settings)
      requires SettingsOk(s)
      ensures this.s == s && Valid() && log == [] && savedLog == [] && !stop && slept == None
    {
      this.s := s;
      iterations, successful, idle, busy, paused, transientErrors, consecutiveErrors, consecutiveUndispatchable := 0, 0, 0, 0, 0, 0, 0, 0;
      stop, slept, log, savedLog := false, None, [], [];
      saved := Some(Row(0, 0, 0, 0, 0, 0, 0, 0));
    }

    /**
      A daemon started again under the same name takes up the row and counts on
      from the ticks that were written down; a row that no longer validates is
      left where it is, and it counts from nothing.
     */
    constructor Resume(previous: SchedulerDaemon, s: Settings, damaged: bool)
      requires previous.Valid() && SettingsOk(s)
      ensures Valid() && !stop && this.s == s && slept == None
      ensures savedLog == (if damaged then [] else previous.savedLog) && log == savedLog
    {
      this.s := s;
      saved := if damaged then None else previous.saved;
      var row := if damaged || previous.saved == None then Row(0, 0, 0, 0, 0, 0, 0, 0) else previous.saved.value;
      iterations, successful, idle, busy, paused := row.iterations, row.successful, row.idle, row.busy, row.paused;
      transientErrors, consecutiveErrors, consecutiveUndispatchable := row.transientErrors, row.consecutiveErrors, row.consecutiveUndispatchable;
      stop, slept := false, None;
      log, savedLog := if damaged then [] else previous.savedLog, if damaged then [] else previous.savedLog;
    }

    /** Every counter but iterations is the true count over these ticks, cut off at the largest integer. */
    ghost predicate Counts(ticks: seq<Tick>)
      reads this`successful, this`idle, this`busy, this`paused, this`transientErrors, this`consecutiveErrors, this`consecutiveUndispatchable
    {
      && successful == Clamp(Successes(ticks))
      && idle == Clamp(Seen(ticks, {Idle, NoWork}))
      && busy == Clamp(Seen(ticks, {Busy}))
      && paused == Clamp(Seen(ticks, {Paused}))
      && transientErrors == Clamp(Errors(ticks))
      && consecutiveErrors == Clamp(ErrorStreak(ticks))
      && consecutiveUndispatchable == Clamp(UndispatchableStreak(ticks))
    }

    ghost predicate Valid() reads this {
      && SettingsOk(s) && iterations == Clamp(|log|) && Counts(log)
      && (if saved == None then savedLog == [] else saved.value == RowOf(savedLog))
    }

    static function Increment(n: nat): nat {
      Clamp(Clamp(n) + 1)
    }

    static function ResultOf(found: Found): Outcome {
      match found
      case FoundIdle => Idle
      case FoundNoWork => NoWork
      case FoundBusy => Busy
      case FoundPaused => Paused
      case FoundProgress => Progress
    }

    /** What a tick comes to: the outcome, or None for a failure. An idle scheduler gives way to the external runner. */
    static function OutcomeOf(input: Input): Option<Outcome> {
      if input.scheduler == None then None
      else
        var result := ResultOf(input.scheduler.value);
        if (result == Idle || result == NoWork) && input.external.Some? then
          match input.external.value
          case ExternalRaises => None
          case Dispatched => Some(External)
          case AuthorizedUndispatchable => Some(Undispatchable)
          case NoAuthorizedWork => Some(result)
        else Some(result)
    }

    /** The tick a running daemon logs for this input. */
    static function TickOf(input: Input): Tick {
      match OutcomeOf(input)
      case None => Failed
      case Some(outcome) => Succeeded(outcome, input.stop != BeforeCounting)
    }

    /** How long to sleep after a tick, by the true counts. */
    ghost function WaitAfter(outcome: Option<Outcome>, log: seq<Tick>): Option<real> {
      match outcome
      case None => if ErrorStreak(log) >= 1 then Some(Delay(s.errorBase, ErrorStreak(log), s.errorMax)) else None
      case Some(Undispatchable) =>
        if UndispatchableStreak(log) >= 1 then Some(Delay(s.undispatchableBase, UndispatchableStreak(log), s.undispatchableMax)) else None
      case Some(Idle) => Some(s.idleSleep)
      case Some(NoWork) => Some(s.idleSleep)
      case Some(Paused) => Some(s.idleSleep)
      case Some(Busy) => Some(s.busySleep)
      case Some(_) => None
    }

    ghost function SleepOf(input: Input, log: seq<Tick>): Option<real> {
      if input.stop == BeforeCounting || input.stop == BeforeSleeping || input.persistFails then None
      else WaitAfter(OutcomeOf(input), log)
    }

    /**
      run_iteration. A tick is logged unless a stop was asked for before it; it
      raises if it failed or its status could not be written.
     */
    method RunIteration(input: Input) returns (raised: bool)
      requires Valid()
      modifies this
      ensures Valid()
      ensures old(stop) ==> log == old(log) && stop && !raised && slept == None
      ensures !old(stop) ==>
        && log == old(log) + [TickOf(input)] && stop == (input.stop != NoStop)
        && (raised <==> TickOf(input).Failed? || input.persistFails)
        && slept == SleepOf(input, log)
      ensures savedLog == if old(stop) || input.persistFails then old(savedLog) else log
    {
      hide SleepOf, TickOf, Counts, SettingsOk, RowOf;
      slept := None;
      if stop {
        return false;
      }
      raised := Tick(input);
    }

    method Tick(input: Input) returns (raised: bool)
      requires Valid() && !stop && slept == None
      modifies this
      ensures Valid()
      ensures log == old(log) + [TickOf(input)] && stop == (input.stop != NoStop)
      ensures raised <==> TickOf(input).Failed? || input.persistFails
      ensures slept == SleepOf(input, log)
      ensures savedLog == if input.persistFails then old(savedLog) else log
    {
      hide ErrorStreak, UndispatchableStreak, Counts, SettingsOk, WaitAfter, RowOf, OutcomeOf, Clamp;
      var outcome := LogTick(input);
      stop := stop || input.stop == BeforeSleeping;
      raised := outcome == None || input.persistFails;
      if !input.persistFails {
        PersistAndSleep(outcome);
      }
      stop := stop || input.stop == AfterSleeping;
    }

    method PersistAndSleep(outcome: Option<Outcome>)
      requires iterations == Clamp(|log|) && Counts(log) && slept == None && SettingsOk(s)
      requires outcome == None ==> ErrorStreak(log) >= 1
      requires outcome == Some(Undispatchable) ==> UndispatchableStreak(log) >= 1
      modifies this`saved, this`savedLog, this`slept
      ensures saved == Some(RowOf(savedLog)) && savedLog == log
      ensures slept == if stop then None else WaitAfter(outcome, log)
    {
      hide ErrorStreak, UndispatchableStreak, SettingsOk, WaitAfter, RowOf;
      Persist();
      Sleep(outcome);
    }

    /** _persist_status. */
    method Persist()
      requires iterations == Clamp(|log|) && Counts(log)
      modifies this`saved, this`savedLog
      ensures saved == Some(RowOf(savedLog)) && savedLog == log
    {
      saved := Some(Row(iterations, successful, idle, busy, paused, transientErrors, consecutiveErrors, consecutiveUndispatchable));
      savedLog := log;
    }

    /** The tick runs and is counted. */
    method LogTick(input: Input) returns (outcome: Option<Outcome>)
      requires iterations == Clamp(|log|) && Counts(log)
      modifies this`iterations, this`stop, this`log,
        this`successful, this`consecutiveErrors, this`consecutiveUndispatchable, this`idle, this`busy, this`paused, this`transientErrors
      ensures outcome == OutcomeOf(input) && log == old(log) + [TickOf(input)] && stop == (input.stop == BeforeCounting)
      ensures iterations == Clamp(|log|) && Counts(log)
      ensures outcome == None ==> ErrorStreak(log) >= 1
      ensures outcome == Some(Undispatchable) ==> UndispatchableStreak(log) >= 1
    {
      hide ErrorStreak, UndispatchableStreak, Counts, ResultOf, OutcomeOf;
      iterations := Increment(iterations);
      stop := input.stop == BeforeCounting;
      outcome := OutcomeOf(input);
      ghost var before := log;
      log := log + [TickOf(input)];
      CountTick(outcome, before);
    }

    method CountTick(outcome: Option<Outcome>, ghost before: seq<Tick>)
      requires log == before + [if outcome == None then Failed else Succeeded(outcome.value, !stop)] && Counts(before)
      modifies this`successful, this`consecutiveErrors, this`consecutiveUndispatchable, this`idle, this`busy, this`paused, this`transientErrors
      ensures Counts(log)
      ensures outcome == None ==> ErrorStreak(log) >= 1
      ensures outcome == Some(Undispatchable) ==> UndispatchableStreak(log) >= 1
    {
      hide *;
      if outcome == None {
        CountFailure(before);
      } else {
        Count(outcome.value, before);
      }
    }

    /** The counters of a tick that succeeded. */
    method Count(outcome: Outcome, ghost before: seq<Tick>)
      requires log == before + [Succeeded(outcome, !stop)] && Counts(before)
      modifies this`successful, this`consecutiveErrors, this`consecutiveUndispatchable, this`idle, this`busy, this`paused
      ensures Counts(log) && (outcome == Undispatchable ==> UndispatchableStreak(log) >= 1)
    {
      LogGrows(before, Succeeded(outcome, !stop));
      hide UndispatchableStreak, Successes, Seen;
      consecutiveUndispatchable := if outcome == Undispatchable then Increment(consecutiveUndispatchable) else 0;
      successful := Increment(successful);
      consecutiveErrors := 0;
      if !stop {
        if outcome == Idle || outcome == NoWork {
          idle := Increment(idle);
        } else if outcome == Busy {
          busy := Increment(busy);
        } else if outcome == Paused {
          paused := Increment(paused);
        }
      }
    }

    /** The counters of one that failed. */
    method CountFailure(ghost before: seq<Tick>)
      requires log == before + [Failed] && Counts(before)
      modifies this`transientErrors, this`consecutiveErrors
      ensures Counts(log) && ErrorStreak(log) >= 1
    {
      LogGrows(before, Failed);
      transientErrors := Increment(transientErrors);
      consecutiveErrors := Increment(consecutiveErrors);
    }

    method Sleep(outcome: Option<Outcome>)
      requires slept == None && SettingsOk(s) && Counts(log)
      requires outcome == None ==> ErrorStreak(log) >= 1
      requires outcome == Some(Undispatchable) ==> UndispatchableStreak(log) >= 1
      modifies this`slept
      ensures slept == if stop then None else WaitAfter(outcome, log)
    {
      if stop {
        return;
      }
      if outcome == None {
        SaturationIsUnseen(s.errorBase, ErrorStreak(log), s.errorMax);
        slept := Some(Backoff(s.errorBase, consecutiveErrors - 1, s.errorMax));
      } else if outcome.value == Undispatchable {
        SaturationIsUnseen(s.undispatchableBase, UndispatchableStreak(log), s.undispatchableMax);
        slept := Some(Backoff(s.undispatchableBase, consecutiveUndispatchable - 1, s.undispatchableMax));
      } else if outcome.value == Idle || outcome.value == NoWork || outcome.value == Paused {
        slept := Some(s.idleSleep);
      } else if outcome.value == Busy {
        slept := Some(s.busySleep);
      }
    }

    /** The tick raises: it failed, or its status could not be written. */
    static predicate Errs(input: Input) {
      TickOf(input).Failed? || input.persistFails
    }

    /** run, for as many ticks as there are inputs: an error ends it only if it may not go on after one. */
    method Run(limit: Option<nat>, continueOnError: bool, inputs: seq<Input>) returns (ticks: nat, raised: bool)
      requires Valid()
      modifies this
      ensures Valid() && |log| == |old(log)| + ticks && ticks <= |inputs| && (limit.Some? ==> ticks <= limit.value)
      ensures log[..|old(log)|] == old(log) && forall i :: 0 <= i < ticks ==> log[|old(log)| + i] == TickOf(inputs[i])
      ensures raised <==> !continueOnError && ticks > 0 && Errs(inputs[ticks - 1])
      ensures !continueOnError ==> forall i :: 0 <= i < ticks - 1 ==> !Errs(inputs[i])
      ensures old(stop) ==> ticks == 0
      ensures ticks > 0 ==> stop == (inputs[ticks - 1].stop != NoStop) && forall i :: 0 <= i < ticks - 1 ==> inputs[i].stop == NoStop
      ensures !raised && !stop ==> ticks == |inputs| || (limit.Some? && ticks == limit.value)
    {
      hide Valid, TickOf, SleepOf;
      ticks := 0;
      raised := false;
      while !stop && ticks < |inputs| && (limit == None || ticks < limit.value)
        invariant Valid() && |log| == |old(log)| + ticks && ticks <= |inputs| && (limit.Some? ==> ticks <= limit.value)
        invariant log[..|old(log)|] == old(log) && forall i :: 0 <= i < ticks ==> log[|old(log)| + i] == TickOf(inputs[i])
        invariant !continueOnError ==> forall i :: 0 <= i < ticks ==> !Errs(inputs[i])
        invariant old(stop) ==> ticks == 0
        invariant if ticks == 0 then stop == old(stop)
                  else stop == (inputs[ticks - 1].stop != NoStop) && forall i :: 0 <= i < ticks - 1 ==> inputs[i].stop == NoStop
      {
        ghost var before := log;
        var failed := RunIteration(inputs[ticks]);
        assert log[..|before|] == before;
        ticks := ticks + 1;
        if failed && !continueOnError {
          return ticks, true;
        }
      }
    }
  }

  lemma LogGrows(log: seq<Tick>, tick: Tick)
    ensures var more := log + [tick];
      && |more| == |log| + 1
      && Successes(more) == Successes(log) + (if tick.Succeeded? then 1 else 0)
      && Errors(more) == Errors(log) + (if tick.Failed? then 1 else 0)
      && ErrorStreak(more) == (if tick.Failed? then ErrorStreak(log) + 1 else 0)
      && UndispatchableStreak(more) ==
           (if tick.Failed? then UndispatchableStreak(log) else if tick.outcome == Undispatchable then UndispatchableStreak(log) + 1 else 0)
    ensures Seen(log + [tick], {Idle, NoWork}) == Seen(log, {Idle, NoWork}) + if tick.Succeeded? && tick.seen && tick.outcome in {Idle, NoWork} then 1 else 0
    ensures Seen(log + [tick], {Busy}) == Seen(log, {Busy}) + if tick.Succeeded? && tick.seen && tick.outcome == Busy then 1 else 0
    ensures Seen(log + [tick], {Paused}) == Seen(log, {Paused}) + if tick.Succeeded? && tick.seen && tick.outcome == Paused then 1 else 0
  {
    assert (log + [tick])[..|log|] == log;
  }

  /**
    What a tick comes to. It fails exactly when the scheduler raises, or had
    nothing to do and the external runner raises; the external runner decides only
    where the scheduler had nothing to do; and an outcome is counted unless a stop
    overtook it.
   */
  lemma TickMeans(input: Input)
    ensures var idle := input.scheduler == Some(FoundIdle) || input.scheduler == Some(FoundNoWork);
      var tick, asked := SchedulerDaemon.TickOf(input), idle && input.external.Some?;
      && (tick.Failed? <==> input.scheduler == None || (asked && input.external.value.ExternalRaises?))
      && (tick.Succeeded? ==> tick.seen == (input.stop != BeforeCounting))
      && (tick.Succeeded? ==> (tick.outcome == External <==> asked && input.external.value.Dispatched?))
      && (tick.Succeeded? ==> (tick.outcome == Undispatchable <==> asked && input.external.value.AuthorizedUndispatchable?))
      && (tick.Succeeded? && (!asked || input.external.value.NoAuthorizedWork?) ==>
            tick.outcome == match input.scheduler.value
              case FoundIdle => Idle
              case FoundNoWork => NoWork
              case FoundBusy => Busy
              case FoundPaused => Paused
              case FoundProgress => Progress)
  {
  }

  /** Whatever has happened, every counter and every counter written down is one that SQLite can hold. */
  lemma CountersFit(daemon: SchedulerDaemon)
    requires daemon.Valid()
    ensures daemon.iterations <= SQLITE_INT_MAX && daemon.successful <= SQLITE_INT_MAX && daemon.idle <= SQLITE_INT_MAX
    ensures daemon.busy <= SQLITE_INT_MAX && daemon.paused <= SQLITE_INT_MAX && daemon.transientErrors <= SQLITE_INT_MAX
    ensures daemon.consecutiveErrors <= SQLITE_INT_MAX && daemon.consecutiveUndispatchable <= SQLITE_INT_MAX
    ensures |daemon.log| <= SQLITE_INT_MAX ==> daemon.iterations == |daemon.log|
  {
  }

  /** Until a counter saturates, the counters the daemon reports add up. */
  lemma CountersAddUp(daemon: SchedulerDaemon)
    requires daemon.Valid() && |daemon.log| < SQLITE_INT_MAX
    ensures daemon.iterations == daemon.successful + daemon.transientErrors
    ensures daemon.idle + daemon.busy + daemon.paused <= daemon.successful
    ensures daemon.consecutiveErrors <= daemon.transientErrors
  {
    EveryTickCounted(daemon.log);
    StreakWithinErrors(daemon.log);
  }

  lemma {:induction false} StreakWithinErrors(log: seq<Tick>)
    ensures ErrorStreak(log) <= Errors(log)
    decreases |log|
  {
    if log != [] {
      StreakWithinErrors(log[..|log| - 1]);
    }
  }
}
