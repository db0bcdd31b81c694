/**
  Supplemental corrections of finished tranches: the ordinals and ticket names
  they are given, and when a tranche with corrections counts as complete.
 */
module Corrections {
  import opened Options
  import opened Decimals

  // ----- Ticket names -----

  /** <tranche>-F<ordinal>, and -<position> when the plan has several tickets. */
  function TicketId(tranche: Text, ordinal: nat, position: Option<nat>): Text {
    var base := tranche + [45] + ([70] + Decimal(ordinal));
    if position.None? then base else base + [45] + Decimal(position.value)
  }

  lemma DashesEnd(a: Text, x: Text)
    requires 45 !in x
    ensures var s := a + [45] + x;
      |a| < |s| && s[|a|] == 45 && forall i :: |a| < i < |s| ==> s[i] != 45
  {
    var s := a + [45] + x;
    forall i | |a| < i < |s| ensures s[i] != 45 {
      assert s[i] == x[i - |a| - 1];
    }
  }

  /** A text with one dash singled out is split there in one way only, if no dash follows it. */
  lemma SplitAtLastDash(a: Text, x: Text, b: Text, y: Text)
    requires a + [45] + x == b + [45] + y && 45 !in x && 45 !in y
    ensures a == b && x == y
  {
    var s := a + [45] + x;
    DashesEnd(a, x);
    DashesEnd(b, y);
    assert s[..|a|] == a && s[..|b|] == b;
    assert s[|a| + 1..] == x && s[|b| + 1..] == y;
  }

  lemma NoDash(n: nat)
    ensures 45 !in Decimal(n) && 45 !in [70] + Decimal(n) && Decimal(n)[0] != 70
  {
    assert AllDigits(Decimal(n));
  }

  /** Names tell tranche, ordinal and position apart, whatever the tranches are called. */
  lemma TicketIdIsInjective(s: Text, m: nat, i: Option<nat>, t: Text, n: nat, j: Option<nat>)
    requires TicketId(s, m, i) == TicketId(t, n, j)
    ensures s == t && m == n && i == j
  {
    NoDash(m);
    NoDash(n);
    var p, q := [70] + Decimal(m), [70] + Decimal(n);
    var a, b := s + [45] + p, t + [45] + q;
    var x := if i.None? then p else Decimal(i.value);
    var y := if j.None? then q else Decimal(j.value);
    if i.Some? {
      NoDash(i.value);
    }
    if j.Some? {
      NoDash(j.value);
    }
    var front, rear := if i.None? then s else a, if j.None? then t else b;
    assert front + [45] + x == rear + [45] + y;
    SplitAtLastDash(front, x, rear, y);
    assert p[0] == 70 && q[0] == 70;
    if i.Some? {
      DecimalIsInjective(i.value, j.value);
      SplitAtLastDash(s, p, t, q);
    }
    assert p[1..] == Decimal(m) && q[1..] == Decimal(n);
    DecimalIsInjective(m, n);
  }

  // ----- Plans -----

  /** The payload of a plan, named by its key, which tells payloads apart. */
  datatype Finding = Finding(key: nat, tranche: Text, size: nat)

  /** tickets is empty until the plan is materialized. */
  datatype Plan = Plan(finding: Finding, ordinal: nat, tickets: seq<Text>)

  type Sha = nat

  /** The head is that of the tranche's integration when the recheck was made. */
  datatype Recheck = Recheck(tranche: Text, plans: seq<nat>, tickets: seq<Text>, commits: seq<Sha>, head: Sha)

  function PlansOf(plans: seq<Plan>, tranche: Text): seq<Plan> {
    if plans == [] then []
    else
      var last := plans[|plans| - 1];
      PlansOf(plans[..|plans| - 1], tranche) + if last.finding.tranche == tranche then [last] else []
  }

  function TicketIds(tranche: Text, ordinal: nat, size: nat): (ids: seq<Text>)
    ensures |ids| == size
    ensures forall k :: 0 <= k < size ==> ids[k] == TicketId(tranche, ordinal, if size > 1 then Some(k + 1) else None)
  {
    seq(size, k requires 0 <= k < size => TicketId(tranche, ordinal, if size > 1 then Some(k + 1) else None))
  }

  function IdsOf(p: Plan): seq<Text> {
    TicketIds(p.finding.tranche, p.ordinal, p.finding.size)
  }

  /** The ordinals of every tranche are 1, 2, and so on, in the order the plans were made. */
  ghost predicate Ordered(plans: seq<Plan>) {
    forall k :: 0 <= k < |plans| ==> plans[k].ordinal == |PlansOf(plans[..k], plans[k].finding.tranche)| + 1
  }

  ghost predicate DistinctKeys(plans: seq<Plan>) {
    forall j, k :: 0 <= j < k < |plans| ==> plans[j].finding.key != plans[k].finding.key
  }

  lemma {:induction false} OrdinalsAreOneToN(plans: seq<Plan>, tranche: Text)
    requires Ordered(plans)
    ensures forall k :: 0 <= k < |PlansOf(plans, tranche)| ==> PlansOf(plans, tranche)[k].ordinal == k + 1
    decreases |plans|
  {
    if plans != [] {
      var front := plans[..|plans| - 1];
      forall k | 0 <= k < |front| ensures front[k].ordinal == |PlansOf(front[..k], front[k].finding.tranche)| + 1 {
        assert front[..k] == plans[..k];
      }
      OrdinalsAreOneToN(front, tranche);
    }
  }

  lemma {:induction false} CountGrows(plans: seq<Plan>, j: nat, tranche: Text)
    requires j <= |plans|
    ensures |PlansOf(plans[..j], tranche)| <= |PlansOf(plans, tranche)|
    decreases |plans|
  {
    if j < |plans| {
      CountGrows(plans[..|plans| - 1], j, tranche);
      assert plans[..|plans| - 1][..j] == plans[..j];
    } else {
      assert plans[..j] == plans;
    }
  }

  /** No two plans share a tranche and an ordinal. */
  lemma OrdinalsDiffer(plans: seq<Plan>, j: nat, k: nat)
    requires Ordered(plans) && j < k < |plans| && plans[j].finding.tranche == plans[k].finding.tranche
    ensures plans[j].ordinal < plans[k].ordinal
  {
    var t := plans[j].finding.tranche;
    CountGrows(plans[..k], j + 1, t);
    assert plans[..k][..j + 1] == plans[..j + 1];
    assert plans[..j + 1][..j] == plans[..j];
    assert plans[..j + 1][j] == plans[j];
  }

  /** Names derived for two plans, or for two places of one, are different names. */
  lemma NamesNeverCollide(plans: seq<Plan>, j: nat, a: nat, k: nat, b: nat)
    requires Ordered(plans) && j <= k < |plans| && a < plans[j].finding.size && b < plans[k].finding.size
    requires IdsOf(plans[j])[a] == IdsOf(plans[k])[b]
    ensures j == k && a == b
  {
    var p, q := plans[j], plans[k];
    TicketIdIsInjective(p.finding.tranche, p.ordinal, if p.finding.size > 1 then Some(a + 1) else None,
                        q.finding.tranche, q.ordinal, if q.finding.size > 1 then Some(b + 1) else None);
    if j < k {
      OrdinalsDiffer(plans, j, k);
    }
  }

  // ----- Completion -----

  datatype Authority = NotAuthorized | ByCompletion | ByRecheck(head: Sha)

  predicate Accepted(p: Plan, done: map<Text, bool>) {
    p.tickets != [] && forall id :: id in p.tickets ==> id in done && done[id]
  }

  function Keys(plans: seq<Plan>): (keys: seq<nat>)
    ensures |keys| == |plans| && forall k :: 0 <= k < |plans| ==> keys[k] == plans[k].finding.key
  {
    seq(|plans|, k requires 0 <= k < |plans| => plans[k].finding.key)
  }

  function Tickets(plans: seq<Plan>): seq<Text> {
    if plans == [] then [] else Tickets(plans[..|plans| - 1]) + plans[|plans| - 1].tickets
  }

  function LatestRecheck(rechecks: seq<Recheck>, tranche: Text): Option<Recheck> {
    if rechecks == [] then None
    else if rechecks[|rechecks| - 1].tranche == tranche then Some(rechecks[|rechecks| - 1])
    else LatestRecheck(rechecks[..|rechecks| - 1], tranche)
  }

  predicate AllAccepted(plans: seq<Plan>, done: map<Text, bool>) {
    forall k :: 0 <= k < |plans| ==> Accepted(plans[k], done)
  }

  /** completion_authority over lifecycle_status. */
  function AuthorityOf(plans: seq<Plan>, done: map<Text, bool>, completed: set<Text>, rechecks: seq<Recheck>, tranche: Text): Authority {
    var current := PlansOf(plans, tranche);
    if tranche !in completed then NotAuthorized
    else if current == [] then ByCompletion
    else if !AllAccepted(current, done) then NotAuthorized
    else
      var latest := LatestRecheck(rechecks, tranche);
      if latest.Some? && latest.value.plans == Keys(current) && latest.value.tickets == Tickets(current)
      then ByRecheck(latest.value.head) else NotAuthorized
  }

  /** A recheck names plans there are. */
  ghost predicate RechecksKnown(rechecks: seq<Recheck>, plans: seq<Plan>) {
    forall i, key :: 0 <= i < |rechecks| && key in rechecks[i].plans ==> key in Keys(plans)
  }

  lemma {:induction false} LatestIsOne(rechecks: seq<Recheck>, tranche: Text)
    requires LatestRecheck(rechecks, tranche).Some?
    ensures LatestRecheck(rechecks, tranche).value in rechecks && LatestRecheck(rechecks, tranche).value.tranche == tranche
    decreases |rechecks|
  {
    if rechecks[|rechecks| - 1].tranche != tranche {
      LatestIsOne(rechecks[..|rechecks| - 1], tranche);
    }
  }

  lemma {:induction false} PlanIsAmongThoseOfItsTranche(plans: seq<Plan>, k: nat)
    requires k < |plans|
    ensures plans[k] in PlansOf(plans, plans[k].finding.tranche)
    decreases |plans|
  {
    if k < |plans| - 1 {
      PlanIsAmongThoseOfItsTranche(plans[..|plans| - 1], k);
    }
  }

  /** No recheck of the tranche names the plan. */
  ghost predicate Unrechecked(rechecks: seq<Recheck>, tranche: Text, key: nat) {
    forall i :: 0 <= i < |rechecks| && rechecks[i].tranche == tranche ==> key !in rechecks[i].plans
  }

  /** A plan that no recheck names leaves its tranche without authority, whatever is done. */
  lemma FindingRevokes(plans: seq<Plan>, rechecks: seq<Recheck>, k: nat, done: map<Text, bool>, completed: set<Text>)
    requires k < |plans| && Unrechecked(rechecks, plans[k].finding.tranche, plans[k].finding.key)
    ensures AuthorityOf(plans, done, completed, rechecks, plans[k].finding.tranche) == NotAuthorized
  {
    var tranche := plans[k].finding.tranche;
    PlanIsAmongThoseOfItsTranche(plans, k);
    var current := PlansOf(plans, tranche);
    var latest := LatestRecheck(rechecks, tranche);
    if latest.Some? {
      LatestIsOne(rechecks, tranche);
      var i :| 0 <= i < |rechecks| && rechecks[i] == latest.value;
      var j :| 0 <= j < |current| && current[j] == plans[k];
      assert plans[k].finding.key == Keys(current)[j];
      assert plans[k].finding.key !in rechecks[i].plans;
    }
  }

  /**
    Whoever has authority left no correction open: each is accepted, and the
    newest recheck names exactly the plans and tickets there are.
   */
  lemma AuthorityLeavesNothingOpen(plans: seq<Plan>, done: map<Text, bool>, completed: set<Text>, rechecks: seq<Recheck>, tranche: Text, k: nat)
    requires AuthorityOf(plans, done, completed, rechecks, tranche) != NotAuthorized
    requires k < |plans| && plans[k].finding.tranche == tranche
    ensures tranche in completed && Accepted(plans[k], done)
    ensures IsRecheckOf(LatestRecheck(rechecks, tranche), plans, tranche)
    ensures AuthorityOf(plans, done, completed, rechecks, tranche) == ByRecheck(LatestRecheck(rechecks, tranche).value.head)
  {
    PlanIsAmongThoseOfItsTranche(plans, k);
    LatestIsOne(rechecks, tranche);
    var current := PlansOf(plans, tranche);
    var j :| 0 <= j < |current| && current[j] == plans[k];
    assert Accepted(current[j], done);
  }

  /** The recheck is of exactly the plans and tickets there are. */
  predicate IsRecheckOf(recheck: Option<Recheck>, plans: seq<Plan>, tranche: Text) {
    && recheck.Some? && recheck.value.tranche == tranche
    && recheck.value.plans == Keys(PlansOf(plans, tranche)) && recheck.value.tickets == Tickets(PlansOf(plans, tranche))
  }

  /** The commits a recheck names, one for each ticket, are in the history of its head. */
  predicate InLineage(recheck: Recheck, history: map<Sha, set<Sha>>) {
    && recheck.head in history && |recheck.commits| == |recheck.tickets|
    && forall i :: 0 <= i < |recheck.commits| ==> recheck.commits[i] in history[recheck.head]
  }

  predicate AllMaterialized(plans: seq<Plan>) {
    forall k :: 0 <= k < |plans| ==> plans[k].tickets != []
  }

  lemma {:induction false} TicketsHold(plans: seq<Plan>, k: nat, id: Text)
    requires k < |plans| && id in plans[k].tickets
    ensures id in Tickets(plans)
    decreases |plans|
  {
    if k < |plans| - 1 {
      TicketsHold(plans[..|plans| - 1], k, id);
    }
  }

  /** With all its tickets done, a list of plans is accepted as far as it is materialized. */
  lemma DoneIsAccepted(plans: seq<Plan>, done: map<Text, bool>)
    requires forall id :: id in Tickets(plans) ==> id in done && done[id]
    ensures AllAccepted(plans, done) <==> AllMaterialized(plans)
  {
    forall k | 0 <= k < |plans| && plans[k].tickets != [] ensures Accepted(plans[k], done) {
      forall id | id in plans[k].tickets ensures id in done && done[id] {
        TicketsHold(plans, k, id);
      }
    }
  }

  datatype Error = Invalid | NoSuchPlan | Collision | NotEligible

  datatype Result<+T> = Ok(value: T) | Err(error: Error)

  /** The plan with this key, and only that one, now has its tickets; id is the first. */
  ghost predicate IsMaterialized(before: seq<Plan>, after: seq<Plan>, at: nat, key: nat, id: Text) {
    && at < |before| && |after| == |before| && after == before[at := before[at].(tickets := IdsOf(before[at]))]
    && before[at].finding.key == key && before[at].finding.size >= 1 && id == IdsOf(before[at])[0]
  }

  /** The commits accepted for these tickets. */
  function CommitsOf(tickets: seq<Text>, accepted: map<Text, Sha>): (commits: seq<Sha>)
    requires forall id :: id in tickets ==> id in accepted
    ensures |commits| == |tickets| && forall i :: 0 <= i < |tickets| ==> commits[i] == accepted[tickets[i]]
  {
    seq(|tickets|, i requires 0 <= i < |tickets| => accepted[tickets[i]])
  }

  class CorrectionService {
    /** For every commit there ever is, the commits it descends from, itself included. */
    const history: map<Sha, set<Sha>>
    var plans: seq<Plan>
    /** Every ticket there is, corrections and others; true once it is done. */
    var done: map<Text, bool>
    /** Tranches with completion evidence. */
    var completed: set<Text>
    var rechecks: seq<Recheck>

    constructor (history: map<Sha, set<Sha>>, done: map<Text, bool>)
      ensures Valid() && plans == [] && rechecks == [] && completed == {} && this.done == done && this.history == history
    {
      this.history := history;
      plans, this.done, completed, rechecks := [], done, {}, [];
    }

    ghost predicate Valid() reads this`plans, this`done, this`rechecks {
      && Ordered(plans) && DistinctKeys(plans) && RechecksKnown(rechecks, plans)
      && (forall i :: 0 <= i < |rechecks| ==> InLineage(rechecks[i], history))
      && (forall k :: 0 <= k < |plans| ==> plans[k].finding.size >= 1 && (plans[k].tickets == [] || plans[k].tickets == IdsOf(plans[k])))
      && (forall k :: 0 <= k < |plans| ==> forall id :: id in plans[k].tickets ==> id in done)
    }

    function Authority(tranche: Text): Authority reads this {
      AuthorityOf(plans, done, completed, rechecks, tranche)
    }

    /** The place of the plan with a key. */
    method Find(key: nat) returns (at: Option<nat>)
      ensures at.Some? ==> at.value < |plans| && plans[at.value].finding.key == key
      ensures at == None <==> key !in Keys(plans)
    {
      for k := 0 to |plans|
        invariant forall j :: 0 <= j < k ==> plans[j].finding.key != key
      {
        if plans[k].finding.key == key {
          assert Keys(plans)[k] == key;
          return Some(k);
        }
      }
      at := None;
    }

    /** create_plan. valid stands for the validation of the payload. A finding seen before gets no second plan. */
    method CreatePlan(finding: Finding, valid: bool) returns (r: Result<nat>)
      requires Valid()
      modifies this`plans
      ensures Valid()
      ensures r == Err(Invalid) <==> !valid || finding.size == 0
      ensures r.Err? ==> r == Err(Invalid)
      ensures r.Err? || finding.key in old(Keys(plans)) ==> plans == old(plans)
      ensures r.Ok? && finding.key !in old(Keys(plans)) ==>
        && plans == old(plans) + [Plan(finding, |PlansOf(old(plans), finding.tranche)| + 1, [])]
        && Unrechecked(rechecks, finding.tranche, finding.key)
        && Authority(finding.tranche) == NotAuthorized
      ensures r.Ok? ==> r.value < |plans| && plans[r.value].finding.key == finding.key
    {
      hide Ordered, DistinctKeys, RechecksKnown, Unrechecked, AuthorityOf, PlansOf, InLineage, Keys, IdsOf;
      if !valid || finding.size == 0 {
        return Err(Invalid);
      }
      var at := Find(finding.key);
      if at.Some? {
        return Ok(at.value);
      }
      NewIsUnrechecked(plans, rechecks, finding);
      ghost var before := plans;
      var plan := Plan(finding, |PlansOf(plans, finding.tranche)| + 1, []);
      plans := plans + [plan];
      PlanAddedKeeps(before, plan, rechecks);
      FindingRevokes(plans, rechecks, |before|, done, completed);
      r := Ok(|plans| - 1);
    }

    /** The ticket rows of a plan, or the news that a name is taken. */
    method Allocate(at: nat) returns (clash: bool, tickets: map<Text, bool>)
      requires Valid() && at < |plans| && plans[at].tickets == []
      ensures !clash ==> (forall id :: id in done ==> id in tickets) && (forall id :: id in IdsOf(plans[at]) ==> id in tickets)
      ensures !clash ==> tickets.Keys == done.Keys + set k | 0 <= k < plans[at].finding.size :: IdsOf(plans[at])[k]
      ensures !clash ==> forall id :: id in tickets ==> tickets[id] == (id in done && done[id])
      ensures clash ==> exists id :: id in done && forall k :: 0 <= k < |plans| ==> id !in plans[k].tickets
    {
      hide Ordered, DistinctKeys, RechecksKnown;
      var ids := IdsOf(plans[at]);
      tickets := done;
      for i := 0 to |ids|
        invariant tickets.Keys == done.Keys + set k | 0 <= k < i :: ids[k]
        invariant forall id :: id in tickets ==> tickets[id] == (id in done && done[id])
      {
        if ids[i] in tickets {
          NameIsForeign(plans, done, at, i, tickets);
          return true, tickets;
        }
        tickets := tickets[ids[i] := false];
      }
      clash := false;
    }

    /** materialize: all the tickets of a plan under new names, or none. */
    method Materialize(key: nat, valid: bool) returns (r: Result<Text>)
      requires Valid()
      modifies this`plans, this`done
      ensures Valid()
      ensures key !in old(Keys(plans)) ==> r == Err(NoSuchPlan)
      ensures key in old(Keys(plans)) ==> if valid then r.Ok? || r == Err(Collision) else r == Err(Invalid)
      ensures r.Err? ==> plans == old(plans) && done == old(done)
      ensures r.Ok? ==> exists at: nat :: IsMaterialized(old(plans), plans, at, key, r.value)
      ensures r.Ok? ==> old(done).Keys <= done.Keys && forall id :: id in done ==> done[id] == (id in old(done) && old(done)[id])
      ensures r.Ok? ==> forall id :: id in done && id !in old(done) ==> exists k :: 0 <= k < |plans| && id in plans[k].tickets
      ensures r == Err(Collision) ==> exists id :: id in old(done) && forall k :: 0 <= k < |plans| ==> id !in plans[k].tickets
    {
      hide Ordered, DistinctKeys, RechecksKnown, InLineage;
      var at := Find(key);
      if at == None {
        return Err(NoSuchPlan);
      }
      if !valid {
        return Err(Invalid);
      }
      var plan := plans[at.value];
      if plan.tickets != [] {
        assert IsMaterialized(plans, plans, at.value, key, plan.tickets[0]);
        return Ok(plan.tickets[0]);
      }
      var clash, tickets := Allocate(at.value);
      if clash {
        return Err(Collision);
      }
      Store(at.value, tickets);
      assert IsMaterialized(old(plans), plans, at.value, key, IdsOf(plan)[0]);
      r := Ok(IdsOf(plan)[0]);
    }

    /** The ticket rows of a plan appear, and the plan counts as materialized. */
    method Store(at: nat, tickets: map<Text, bool>)
      requires Valid() && at < |plans| && plans[at].tickets == []
      requires tickets.Keys == done.Keys + set k | 0 <= k < plans[at].finding.size :: IdsOf(plans[at])[k]
      modifies this`plans, this`done
      ensures Valid() && done == tickets && plans == old(plans)[at := old(plans)[at].(tickets := IdsOf(old(plans)[at]))]
      ensures forall id :: id in done && id !in old(done) ==> id in plans[at].tickets
    {
      hide Ordered, DistinctKeys, RechecksKnown, InLineage;
      ghost var before := plans;
      plans, done := plans[at := plans[at].(tickets := IdsOf(plans[at]))], tickets;
      MaterializedKeeps(before, at, rechecks);
      assert plans[at].tickets == IdsOf(before[at]);
    }

    /** What a recheck asks of the tickets: done, and their accepted commits in the history of the head. */
    predicate Eligible(tickets: seq<Text>, accepted: map<Text, Sha>, head: Option<Sha>) reads this`done {
      && tickets != [] && head.Some? && head.value in history
      && forall id :: id in tickets ==> id in done && done[id] && id in accepted && accepted[id] in history[head.value]
    }

    /**
      record_tranche_completion_recheck; head is the tranche's integration head, if
      there is one, accepted the evidence of accepted tickets, and provenance
      stands for repository, base and snapshot being one. It gives a completed
      tranche authority exactly when every plan it has is materialized.
     */
    method RecordRecheck(tranche: Text, accepted: map<Text, Sha>, head: Option<Sha>, provenance: bool) returns (r: Result<Recheck>)
      requires Valid()
      modifies this`rechecks
      ensures Valid()
      ensures r.Ok? <==>
        && provenance && Eligible(Tickets(PlansOf(plans, tranche)), accepted, head)
        && (tranche in completed || old(LatestRecheck(rechecks, tranche)).Some?)
      ensures r.Err? ==> rechecks == old(rechecks)
      ensures r.Ok? ==>
        && LatestRecheck(rechecks, tranche) == Some(r.value) && IsRecheckOf(Some(r.value), plans, tranche)
        && Some(r.value.head) == head && r.value.commits == CommitsOf(r.value.tickets, accepted)
        && rechecks == if old(LatestRecheck(rechecks, tranche)) == Some(r.value) then old(rechecks) else old(rechecks) + [r.value]
      ensures r.Ok? && tranche in completed ==>
        Authority(tranche) == if AllMaterialized(PlansOf(plans, tranche)) then ByRecheck(head.value) else NotAuthorized
    {
      var current := PlansOf(plans, tranche);
      var tickets := Tickets(current);
      if current == [] || !provenance || !Eligible(tickets, accepted, head) {
        return Err(NotEligible);
      }
      DoneIsAccepted(current, done);
      var recheck := Recheck(tranche, Keys(current), tickets, CommitsOf(tickets, accepted), head.value);
      var latest := LatestRecheck(rechecks, tranche);
      if latest == Some(recheck) {
        return Ok(recheck);
      }
      if latest == None && tranche !in completed {
        return Err(NotEligible);
      }
      CurrentKeysKnown(plans, tranche);
      rechecks := rechecks + [recheck];
      r := Ok(recheck);
    }

    /** The completion evidence of a tranche is recorded; it is never taken back. */
    method Complete(tranche: Text)
      requires Valid()
      modifies this`completed
      ensures Valid() && completed == old(completed) + {tranche}
    {
      completed := completed + {tranche};
    }

    /** The state of a ticket changes. */
    method SetDone(id: Text, value: bool)
      requires Valid()
      modifies this`done
      ensures Valid() && done == if id in old(done) then old(done)[id := value] else old(done)
    {
      if id in done {
        done := done[id := value];
      }
    }
  }

  datatype Turn =
    | Finds(finding: Finding, valid: bool)
    | Materializes(key: nat, valid: bool)
    | Completes(tranche: Text)
    | Rechecks(tranche: Text, accepted: map<Text, Sha>, head: Option<Sha>, provenance: bool)
    | Changes(id: Text, done: bool)

  /**
    After a new finding, whatever is done, the tranche has no authority as long as
    it is not rechecked: not for tickets that are done, nor for other findings or
    the rechecks of other tranches.
   */
  method NothingButARecheck(service: CorrectionService, finding: Finding, turns: seq<Turn>)
    requires service.Valid() && finding.size > 0 && finding.key !in Keys(service.plans)
    requires forall i :: 0 <= i < |turns| && turns[i].Rechecks? ==> turns[i].tranche != finding.tranche
    modifies service
    ensures service.Valid() && service.Authority(finding.tranche) == NotAuthorized
  {
    hide Ordered, DistinctKeys, RechecksKnown, AuthorityOf;
    var made := service.CreatePlan(finding, true);
    var at := made.value;
    for i := 0 to |turns|
      invariant service.Valid() && at < |service.plans| && service.plans[at].finding == finding
      invariant Unrechecked(service.rechecks, finding.tranche, finding.key)
    {
      match turns[i]
      case Finds(another, valid) => var r := service.CreatePlan(another, valid);
      case Materializes(key, valid) => var r := service.Materialize(key, valid);
      case Completes(tranche) => service.Complete(tranche);
      case Rechecks(tranche, accepted, head, provenance) => var r := service.RecordRecheck(tranche, accepted, head, provenance);
      case Changes(id, done) => service.SetDone(id, done);
    }
    FindingRevokes(service.plans, service.rechecks, at, service.done, service.completed);
  }

  /** The head that authority by recheck names holds every accepted correction of the tranche. */
  lemma AuthorityHoldsEveryCorrection(service: CorrectionService, tranche: Text)
    requires service.Valid() && service.Authority(tranche).ByRecheck?
    ensures var recheck, head := LatestRecheck(service.rechecks, tranche), service.Authority(tranche).head;
      && IsRecheckOf(recheck, service.plans, tranche) && head == recheck.value.head && head in service.history
      && |recheck.value.commits| == |Tickets(PlansOf(service.plans, tranche))|
      && forall i :: 0 <= i < |recheck.value.commits| ==> recheck.value.commits[i] in service.history[head]
  {
    LatestIsOne(service.rechecks, tranche);
    var recheck := LatestRecheck(service.rechecks, tranche).value;
    var i :| 0 <= i < |service.rechecks| && service.rechecks[i] == recheck;
    assert InLineage(service.rechecks[i], service.history);
  }

  lemma NewIsUnrechecked(plans: seq<Plan>, rechecks: seq<Recheck>, finding: Finding)
    requires RechecksKnown(rechecks, plans) && finding.key !in Keys(plans)
    ensures Unrechecked(rechecks, finding.tranche, finding.key)
  {
  }

  lemma PlanAddedKeeps(plans: seq<Plan>, plan: Plan, rechecks: seq<Recheck>)
    requires Ordered(plans) && DistinctKeys(plans) && RechecksKnown(rechecks, plans) && plan.finding.key !in Keys(plans)
    requires plan.ordinal == |PlansOf(plans, plan.finding.tranche)| + 1
    ensures Ordered(plans + [plan]) && DistinctKeys(plans + [plan]) && RechecksKnown(rechecks, plans + [plan])
  {
    var more := plans + [plan];
    forall k | 0 <= k < |more| ensures more[k].ordinal == |PlansOf(more[..k], more[k].finding.tranche)| + 1 {
      if k < |plans| {
        assert more[..k] == plans[..k];
      } else {
        assert more[..k] == plans;
      }
    }
    forall j | 0 <= j < |plans| ensures plans[j].finding.key != plan.finding.key {
      assert Keys(plans)[j] == plans[j].finding.key;
    }
    forall key | key in Keys(plans) ensures key in Keys(more) {
      var j :| 0 <= j < |plans| && Keys(plans)[j] == key;
      assert Keys(more)[j] == key;
    }
  }

  lemma {:induction false} SamePlansOf(a: seq<Plan>, b: seq<Plan>, tranche: Text)
    requires |a| == |b| && forall k :: 0 <= k < |a| ==> a[k].finding == b[k].finding
    ensures |PlansOf(a, tranche)| == |PlansOf(b, tranche)|
    decreases |a|
  {
    if a != [] {
      SamePlansOf(a[..|a| - 1], b[..|b| - 1], tranche);
    }
  }

  lemma MaterializedKeeps(plans: seq<Plan>, at: nat, rechecks: seq<Recheck>)
    requires at < |plans| && Ordered(plans) && DistinctKeys(plans) && RechecksKnown(rechecks, plans)
    ensures var more := plans[at := plans[at].(tickets := IdsOf(plans[at]))];
      Ordered(more) && DistinctKeys(more) && RechecksKnown(rechecks, more)
  {
    var more := plans[at := plans[at].(tickets := IdsOf(plans[at]))];
    assert Keys(more) == Keys(plans);
    forall k | 0 <= k < |more| ensures more[k].ordinal == |PlansOf(more[..k], more[k].finding.tranche)| + 1 {
      SamePlansOf(more[..k], plans[..k], more[k].finding.tranche);
    }
  }

  /** A name that is taken was taken by a ticket that is no correction. */
  lemma NameIsForeign(plans: seq<Plan>, done: map<Text, bool>, at: nat, i: nat, tickets: map<Text, bool>)
    requires Ordered(plans) && at < |plans| && plans[at].tickets == [] && i < plans[at].finding.size
    requires forall k :: 0 <= k < |plans| ==> plans[k].tickets == [] || plans[k].tickets == IdsOf(plans[k])
    requires tickets.Keys == done.Keys + set k | 0 <= k < i :: IdsOf(plans[at])[k]
    requires IdsOf(plans[at])[i] in tickets
    ensures IdsOf(plans[at])[i] in done && forall k :: 0 <= k < |plans| ==> IdsOf(plans[at])[i] !in plans[k].tickets
  {
    var id := IdsOf(plans[at])[i];
    if id !in done {
      var k :| 0 <= k < i && IdsOf(plans[at])[k] == id;
      NamesNeverCollide(plans, at, k, at, i);
    }
    forall k | 0 <= k < |plans| ensures id !in plans[k].tickets {
      if id in plans[k].tickets {
        var b :| 0 <= b < |plans[k].tickets| && plans[k].tickets[b] == id;
        if k <= at {
          NamesNeverCollide(plans, k, b, at, i);
        } else {
          NamesNeverCollide(plans, at, i, k, b);
        }
      }
    }
  }

  lemma {:induction false} CurrentKeysKnown(plans: seq<Plan>, tranche: Text)
    ensures forall key :: key in Keys(PlansOf(plans, tranche)) ==> key in Keys(plans)
    decreases |plans|
  {
    if plans != [] {
      var front, last := plans[..|plans| - 1], plans[|plans| - 1];
      CurrentKeysKnown(front, tranche);
      forall key | key in Keys(PlansOf(plans, tranche)) ensures key in Keys(plans) {
        var j :| 0 <= j < |PlansOf(plans, tranche)| && Keys(PlansOf(plans, tranche))[j] == key;
        if j < |PlansOf(front, tranche)| {
          assert key == Keys(PlansOf(front, tranche))[j];
          assert key in Keys(PlansOf(front, tranche));
          var i :| 0 <= i < |front| && Keys(front)[i] == key;
          assert Keys(plans)[i] == key;
        } else {
          assert Keys(plans)[|plans| - 1] == key;
        }
      }
    }
  }
}
