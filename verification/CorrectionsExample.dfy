/**
  A run of the correction service in which a tranche is rechecked while one of
  its corrections is only planned.
 */
module CorrectionsExample {
  import opened Options
  import opened Decimals
  import opened Corrections

  /** A correction with one ticket, materialized or only planned. */
  function OneTicket(key: nat, tranche: Text, ordinal: nat, materialized: bool): Plan {
    Plan(Finding(key, tranche, 1), ordinal, if materialized then [TicketId(tranche, ordinal, None)] else [])
  }

  lemma OneTicketIds(key: nat, tranche: Text, ordinal: nat, materialized: bool)
    ensures IdsOf(OneTicket(key, tranche, ordinal, materialized)) == [TicketId(tranche, ordinal, None)]
  {
  }

  lemma TwoOfOneTranche(a: Plan, b: Plan, tranche: Text)
    requires a.finding.tranche == tranche == b.finding.tranche
    ensures PlansOf([a], tranche) == [a] && PlansOf([a, b], tranche) == [a, b]
    ensures Tickets([a]) == a.tickets && Tickets([a, b]) == a.tickets + b.tickets
  {
    assert [a][..0] == [] && [a, b][..1] == [a];
  }

  lemma KeyIsThere(plans: seq<Plan>, k: nat)
    requires k < |plans|
    ensures plans[k].finding.key in Keys(plans)
  {
    assert Keys(plans)[k] == plans[k].finding.key;
  }

  /** Every ticket there is belongs to one of these plans. */
  ghost predicate NoForeignTickets(plans: seq<Plan>, done: map<Text, bool>) {
    forall id :: id in done ==> exists k :: 0 <= k < |plans| && id in plans[k].tickets
  }

  /** The last plan, with one ticket to come, is materialized and its ticket done. */
  method FinishLast(service: CorrectionService, front: seq<Plan>, key: nat, tranche: Text, ordinal: nat)
    requires service.Valid() && service.plans == front + [OneTicket(key, tranche, ordinal, false)]
    requires NoForeignTickets(service.plans, service.done) && forall k :: 0 <= k < |front| ==> front[k].finding.key != key
    modifies service
    ensures service.Valid() && service.plans == front + [OneTicket(key, tranche, ordinal, true)]
    ensures service.done == old(service.done)[TicketId(tranche, ordinal, None) := true]
    ensures service.completed == old(service.completed) && service.rechecks == old(service.rechecks)
  {
    hide TicketId, Ordered, DistinctKeys, RechecksKnown, InLineage, AuthorityOf, PlansOf, Keys, IdsOf;
    var id := TicketId(tranche, ordinal, None);
    OneTicketIds(key, tranche, ordinal, false);
    KeyIsThere(service.plans, |front|);
    ghost var before := service.plans;
    var first := service.Materialize(key, true);
    ghost var at: nat :| IsMaterialized(before, service.plans, at, key, first.value);
    assert at == |front|;
    assert service.plans == front + [OneTicket(key, tranche, ordinal, true)];
    assert service.plans[|front|].tickets == [id] && id in service.plans[|front|].tickets;
    assert service.done.Keys == old(service.done).Keys + {id};
    service.SetDone(id, true);
  }

  /** A tranche with completion evidence and one correction, which is done. */
  method OneDone(tranche: Text, key: nat) returns (service: CorrectionService)
    ensures fresh(service) && service.Valid() && tranche in service.completed && service.history == map[0 := {0}]
    ensures service.plans == [OneTicket(key, tranche, 1, true)] && service.rechecks == []
    ensures service.done == map[TicketId(tranche, 1, None) := true]
  {
    hide TicketId, Ordered, DistinctKeys, RechecksKnown, InLineage, AuthorityOf, Keys, IdsOf;
    service := new CorrectionService(map[0 := {0}], map[]);
    service.Complete(tranche);
    var planned := service.CreatePlan(Finding(key, tranche, 1), true);
    assert service.plans == [] + [OneTicket(key, tranche, 1, false)];
    FinishLast(service, [], key, tranche, 1);
  }

  lemma BothMaterialized(a: Plan, b: Plan)
    ensures AllMaterialized([a, b]) <==> a.tickets != [] && b.tickets != []
  {
    assert [a, b][0] == a && [a, b][1] == b;
  }

  /** A tranche with two corrections is rechecked, all the tickets there are being done and accepted. */
  method RecheckTwo(service: CorrectionService, a: Plan, b: Plan, tranche: Text, accepted: map<Text, Sha>)
    returns (recorded: bool, authority: Authority)
    requires service.Valid() && service.plans == [a, b] && a.finding.tranche == tranche == b.finding.tranche
    requires tranche in service.completed && a.tickets + b.tickets != []
    requires service.Eligible(a.tickets + b.tickets, accepted, Some(0))
    modifies service
    ensures service.Valid() && service.plans == [a, b] && service.completed == old(service.completed) && service.done == old(service.done)
    ensures recorded && authority == if a.tickets != [] && b.tickets != [] then ByRecheck(0) else NotAuthorized
  {
    hide *;
    TwoOfOneTranche(a, b, tranche);
    BothMaterialized(a, b);
    var recheck := service.RecordRecheck(tranche, accepted, Some(0), true);
    recorded := recheck.Ok?;
    authority := service.Authority(tranche);
  }

  /** The second of two corrections is planned. */
  method PlanSecond(tranche: Text, key: nat, other: nat) returns (service: CorrectionService)
    requires key != other
    ensures fresh(service) && service.Valid() && tranche in service.completed && service.history == map[0 := {0}]
    ensures service.plans == [OneTicket(key, tranche, 1, true), OneTicket(other, tranche, 2, false)]
    ensures service.done == map[TicketId(tranche, 1, None) := true]
  {
    hide TicketId, Ordered, DistinctKeys, RechecksKnown, InLineage, AuthorityOf, Keys, IdsOf, PlansOf;
    service := OneDone(tranche, key);
    var a, b := OneTicket(key, tranche, 1, true), OneTicket(other, tranche, 2, false);
    TwoOfOneTranche(a, b, tranche);
    OnlyKey(a);
    var planned := service.CreatePlan(Finding(other, tranche, 1), true);
  }

  /**
    With one correction done and the other only planned, a recheck is recorded
    and grants nothing. Once the other is materialized and done too, a second
    recheck gives authority.
   */
  method RecheckedTooEarly(tranche: Text, key: nat, other: nat) returns (recorded: bool, early: Authority, late: Authority)
    requires key != other
    ensures recorded && early == NotAuthorized && late == ByRecheck(0)
  {
    hide TicketId, IdsOf, CorrectionService.Valid;
    var x, y := TicketId(tranche, 1, None), TicketId(tranche, 2, None);
    var a, b, c := OneTicket(key, tranche, 1, true), OneTicket(other, tranche, 2, false), OneTicket(other, tranche, 2, true);
    var service := PlanSecond(tranche, key, other);
    recorded, early := RecheckTwo(service, a, b, tranche, map[x := 0]);
    assert x in service.plans[0].tickets;
    FinishLast(service, [a], other, tranche, 2);
    var again, authority := RecheckTwo(service, a, c, tranche, map[x := 0, y := 0]);
    late := authority;
  }

  lemma OnlyKey(p: Plan)
    ensures forall key :: key in Keys([p]) <==> key == p.finding.key
  {
    assert Keys([p])[0] == p.finding.key;
  }
}
