/**
  PlanValidator: which plans and tranches pass, and what passing buys. A plan
  that passes covers every criterion with a ticket that declares it, and can
  always make progress if its active ticket ids are all distinct or all the same;
  every other list of ids short enough to pass can hide a cycle.
 */
module PlanValidation {
  import opened DependencyGraph
  import opened CycleSearch

  /** paths counts the declared files; sound says that validate_ticket finds no other fault. */
  datatype MicroTicket = MicroTicket(
    ticketId: string, objective: string, criterionIds: seq<string>, dependencies: seq<string>,
    maxFiles: int, maxChangedLines: int, paths: nat, sound: bool)
  {
    /** validate_ticket: there is a declared file, and no more of them than the budget allows. */
    predicate Ready() {
      sound && 1 <= paths <= maxFiles
    }
  }

  datatype FeatureContract = FeatureContract(id: string, criteria: seq<string>, sourceRevision: string)

  datatype Tranche = Tranche(id: string, ordinal: int, criterionIds: seq<string>, microtickets: seq<MicroTicket>)

  /** boundContract stands for the contract hash: equal hashes mean equal contracts. */
  datatype DecompositionPlan = DecompositionPlan(
    featureId: string, boundContract: FeatureContract, criterionCoverage: map<string, seq<string>>,
    tranches: seq<Tranche>, scopeChangeProposals: seq<string>, unresolvedQuestions: seq<string>)

  datatype Reason =
    | FeatureMismatch | StaleFeatureContract | CriterionUncovered | UnknownCriterion
    | InvalidCriterionCoverage | InvalidCriterionTicketReference | CriterionTicketMismatch
    | CriterionTrancheMismatch | InvalidMicroticket | ActiveTrancheLimitExceeded
    | PatchBudgetExceeded | InvalidDependency | DependencyCycle | ScopeExpansion
    | UnresolvedChoice | TrancheScopeExpanded | CriterionScopeExpanded

  datatype PlanValidationResult = PlanValidationResult(passed: bool, reasons: set<Reason>)

  function Ids(tickets: seq<MicroTicket>): set<string> {
    set t | t in tickets :: t.ticketId
  }

  function ToSet(names: seq<string>): set<string> {
    set n | n in names
  }

  /** The dependency dict: a later ticket with the same id replaces an earlier one. */
  function GraphOf(tickets: seq<MicroTicket>): (graph: DependencyMap)
    ensures graph.Keys == Ids(tickets)
  {
    if tickets == [] then map[]
    else
      var last := tickets[|tickets| - 1];
      assert tickets == tickets[..|tickets| - 1] + [last];
      GraphOf(tickets[..|tickets| - 1])[last.ticketId := ToSet(last.dependencies)]
  }

  /** Every dependency any listed ticket declares, whether or not its entry was replaced. */
  function DeclaredEdges(tickets: seq<MicroTicket>): Edges {
    set t, d | t in tickets && d in t.dependencies :: (t.ticketId, d)
  }

  function IdList(tickets: seq<MicroTicket>): (ids: seq<string>)
    ensures |ids| == |tickets| && forall i :: 0 <= i < |ids| ==> ids[i] == tickets[i].ticketId
  {
    seq(|tickets|, i requires 0 <= i < |tickets| => tickets[i].ticketId)
  }

  predicate Distinct(ids: seq<string>) {
    forall i, j :: 0 <= i < j < |ids| ==> ids[i] != ids[j]
  }

  predicate AllEqual(ids: seq<string>) {
    forall i, j :: 0 <= i < j < |ids| ==> ids[i] == ids[j]
  }

  predicate Mentions(text: string, word: string) {
    |word| <= |text| && (word <= text || (text != [] && Mentions(text[1..], word)))
  }

  predicate StandsAt(text: string, word: string, i: nat) {
    i + |word| <= |text| && text[i..i + |word|] == word
  }

  lemma StandsFurther(text: string, word: string, i: nat)
    requires text != []
    ensures StandsAt(text[1..], word, i) <==> StandsAt(text, word, i + 1)
  {
    if i + 1 + |word| <= |text| {
      assert text[1..][i..i + |word|] == text[i + 1..i + 1 + |word|];
    }
  }

  /** The word stands somewhere in the text. */
  lemma {:induction false} MentionsIff(text: string, word: string)
    ensures Mentions(text, word) <==> exists i: nat :: StandsAt(text, word, i)
    decreases |text|
  {
    assert word <= text <==> StandsAt(text, word, 0);
    if text != [] && !(word <= text) {
      hide StandsAt;
      MentionsIff(text[1..], word);
      if i: nat :| StandsAt(text[1..], word, i) {
        StandsFurther(text, word, i);
        TooLong(text, word, i + 1);
      }
      if i: nat :| StandsAt(text, word, i) {
        StandsFurther(text, word, i - 1);
        TooLong(text, word, i);
      }
    }
  }

  lemma TooLong(text: string, word: string, i: nat)
    requires StandsAt(text, word, i)
    ensures |word| <= |text|
  {
  }

  function FirstActive(tranches: seq<Tranche>): (i: nat)
    ensures i <= |tranches|
    ensures i < |tranches| ==> tranches[i].ordinal == 0
    ensures forall j :: 0 <= j < i ==> tranches[j].ordinal != 0
  {
    if tranches == [] || tranches[0].ordinal == 0 then 0 else 1 + FirstActive(tranches[1..])
  }

  /** The last tranche listing the ticket, which is where the location dict points. */
  ghost predicate LocatedAt(tranches: seq<Tranche>, ticketId: string, i: nat) {
    && i < |tranches|
    && ticketId in Ids(tranches[i].microtickets)
    && forall j :: i < j < |tranches| ==> ticketId !in Ids(tranches[j].microtickets)
  }

  ghost predicate FirstNamed(tickets: seq<MicroTicket>, ticketId: string, k: nat) {
    && k < |tickets|
    && tickets[k].ticketId == ticketId
    && forall j :: 0 <= j < k ==> tickets[j].ticketId != ticketId
  }

  ghost predicate ReferenceHolds(tranches: seq<Tranche>, criterion: string, ticketId: string) {
    exists i: nat, k: nat ::
      && LocatedAt(tranches, ticketId, i)
      && FirstNamed(tranches[i].microtickets, ticketId, k)
      && criterion in tranches[i].microtickets[k].criterionIds
      && criterion in tranches[i].criterionIds
  }

  ghost predicate CriterionCovered(plan: DecompositionPlan, criterion: string) {
    && criterion in plan.criterionCoverage
    && plan.criterionCoverage[criterion] != []
    && forall id :: id in plan.criterionCoverage[criterion] ==> ReferenceHolds(plan.tranches, criterion, id)
  }

  class PlanValidator {
    const maxActiveTickets: int
    const maxFiles: int
    const maxLines: int

    constructor (maxActiveTickets: int, maxFiles: int, maxLines: int)
      ensures this.maxActiveTickets == maxActiveTickets && this.maxFiles == maxFiles && this.maxLines == maxLines
    {
      this.maxActiveTickets, this.maxFiles, this.maxLines := maxActiveTickets, maxFiles, maxLines;
    }

    ghost predicate TicketFits(t: MicroTicket, criteria: set<string>, ids: set<string>) {
      && t.Ready()
      && ToSet(t.criterionIds) <= criteria
      && t.maxFiles <= maxFiles && t.maxChangedLines <= maxLines
      && ToSet(t.dependencies) <= ids && t.ticketId !in t.dependencies
    }

    ghost predicate Accepts(feature: FeatureContract, plan: DecompositionPlan) {
      var criteria := ToSet(feature.criteria);
      var a := FirstActive(plan.tranches);
      && plan.featureId == feature.id
      && plan.boundContract == feature
      && plan.criterionCoverage.Keys == criteria
      && (forall c :: c in criteria ==> CriterionCovered(plan, c))
      && a < |plan.tranches|
      && (forall t :: t in plan.tranches ==> ToSet(t.criterionIds) <= criteria)
      && ActivePasses(plan, plan.tranches[a].microtickets, criteria)
    }

    ghost predicate AcceptsTranche(feature: FeatureContract, tranche: Tranche, coarse: Tranche) {
      var criteria, allowed := ToSet(feature.criteria), ToSet(coarse.criterionIds);
      var tickets := tranche.microtickets;
      && tickets != []
      && ToSet(tranche.criterionIds) <= allowed
      && (forall t :: t in tickets ==> TicketFits(t, criteria * allowed, Ids(tickets)))
      && !HasCycle(EdgesOf(GraphOf(tickets)))
    }

    method BuildGraph(tickets: seq<MicroTicket>) returns (graph: DependencyMap)
      ensures graph == GraphOf(tickets)
    {
      graph := map[];
      for i := 0 to |tickets|
        invariant graph == GraphOf(tickets[..i])
      {
        assert tickets[..i + 1][..i] == tickets[..i];
        graph := graph[tickets[i].ticketId := ToSet(tickets[i].dependencies)];
      }
      assert tickets[..|tickets|] == tickets;
    }

    method ValidateTranche(feature: FeatureContract, tranche: Tranche, coarse: Tranche) returns (result: PlanValidationResult)
      ensures result.passed <==> AcceptsTranche(feature, tranche, coarse)
      ensures result.passed <==> result.reasons == {}
      ensures DependencyCycle in result.reasons <==> HasCycle(EdgesOf(GraphOf(tranche.microtickets)))
    {
      var r: set<Reason> := {};
      var criteria, allowed := ToSet(feature.criteria), ToSet(coarse.criterionIds);
      var tickets := tranche.microtickets;
      if tickets == [] {
        r := r + {InvalidMicroticket};
      }
      if !(ToSet(tranche.criterionIds) <= allowed) {
        r := r + {TrancheScopeExpanded};
      }
      var ids := Ids(tickets);
      ghost var before := r;
      for i := 0 to |tickets|
        invariant DependencyCycle !in r
        invariant r == {} <==> before == {} && forall j :: 0 <= j < i ==> TicketFits(tickets[j], criteria * allowed, ids)
      {
        var t := tickets[i];
        if !t.Ready() {
          r := r + {InvalidMicroticket};
          continue;
        }
        if !(ToSet(t.criterionIds) <= allowed) || !(ToSet(t.criterionIds) <= criteria) {
          r := r + {CriterionScopeExpanded};
        }
        if t.maxFiles > maxFiles || t.maxChangedLines > maxLines {
          r := r + {PatchBudgetExceeded};
        }
        if !(ToSet(t.dependencies) <= ids) || t.ticketId in t.dependencies {
          r := r + {InvalidDependency};
        }
      }
      var graph := BuildGraph(tickets);
      var bad := TrancheHasCycle(graph);
      if bad {
        r := r + {DependencyCycle};
      }
      result := PlanValidationResult(r == {}, r);
    }

    /** The location dict: for each ticket id, the last tranche that lists it. */
    method Locate(tranches: seq<Tranche>) returns (locations: map<string, nat>)
      ensures forall id :: id in locations ==> LocatedAt(tranches, id, locations[id])
      ensures forall id, i :: LocatedAt(tranches, id, i) ==> id in locations && locations[id] == i
    {
      locations := map[];
      for i := 0 to |tranches|
        invariant forall id :: id in locations ==> LocatedAt(tranches[..i], id, locations[id])
        invariant forall id, j :: 0 <= j < i && id in Ids(tranches[j].microtickets) ==> id in locations
      {
        ghost var prior := locations;
        locations := locations + map id | id in Ids(tranches[i].microtickets) :: i;
        forall id | id in locations ensures LocatedAt(tranches[..i + 1], id, locations[id]) {
          LocatedFurther(tranches, i, id, prior);
        }
      }
      assert tranches[..|tranches|] == tranches;
    }

    method FindNamed(tickets: seq<MicroTicket>, ticketId: string) returns (k: nat)
      requires ticketId in Ids(tickets)
      ensures FirstNamed(tickets, ticketId, k)
    {
      k := 0;
      while tickets[k].ticketId != ticketId
        invariant k < |tickets|
        invariant forall j :: 0 <= j < k ==> tickets[j].ticketId != ticketId
        invariant exists j :: k <= j < |tickets| && tickets[j].ticketId == ticketId
        decreases |tickets| - k
      {
        k := k + 1;
      }
    }

    /** The coverage check of one criterion: the reasons it adds. */
    method CheckCoverage(plan: DecompositionPlan, locations: map<string, nat>, criterion: string) returns (r: set<Reason>)
      requires criterion in plan.criterionCoverage
      requires forall id :: id in locations ==> LocatedAt(plan.tranches, id, locations[id])
      requires forall id, i :: LocatedAt(plan.tranches, id, i) ==> id in locations && locations[id] == i
      ensures r == {} <==> CriterionCovered(plan, criterion)
      ensures DependencyCycle !in r
    {
      r := {};
      var ticketIds := plan.criterionCoverage[criterion];
      if ticketIds == [] {
        return {InvalidCriterionCoverage};
      }
      for n := 0 to |ticketIds|
        invariant DependencyCycle !in r
        invariant r == {} <==> forall m :: 0 <= m < n ==> ReferenceHolds(plan.tranches, criterion, ticketIds[m])
      {
        var ticketId := ticketIds[n];
        if ticketId !in locations {
          assert !ReferenceHolds(plan.tranches, criterion, ticketId);
          r := r + {InvalidCriterionTicketReference};
          continue;
        }
        var i := locations[ticketId];
        var k := FindNamed(plan.tranches[i].microtickets, ticketId);
        ReferenceIsUnique(plan.tranches, criterion, ticketId, i, k);
        if criterion !in plan.tranches[i].microtickets[k].criterionIds {
          r := r + {CriterionTicketMismatch};
        }
        if criterion !in plan.tranches[i].criterionIds {
          r := r + {CriterionTrancheMismatch};
        }
      }
      assert forall id :: id in ticketIds ==> exists m :: 0 <= m < |ticketIds| && ticketIds[m] == id;
    }

    /** The coverage loop over the criteria both sides know. */
    method CheckCoverages(plan: DecompositionPlan, shared: set<string>) returns (r: set<Reason>)
      requires shared <= plan.criterionCoverage.Keys
      ensures r == {} <==> forall c :: c in shared ==> CriterionCovered(plan, c)
      ensures DependencyCycle !in r
    {
      r := {};
      var locations := Locate(plan.tranches);
      var rest := shared;
      while rest != {}
        invariant rest <= shared && DependencyCycle !in r
        invariant r == {} <==> forall c :: c in shared && c !in rest ==> CriterionCovered(plan, c)
        decreases rest
      {
        var c :| c in rest;
        var more := CheckCoverage(plan, locations, c);
        rest := rest - {c};
        r := r + more;
      }
    }

    method CheckTrancheCriteria(tranches: seq<Tranche>, criteria: set<string>) returns (r: set<Reason>)
      ensures r == {} <==> forall t :: t in tranches ==> ToSet(t.criterionIds) <= criteria
      ensures DependencyCycle !in r
    {
      r := {};
      for i := 0 to |tranches|
        invariant DependencyCycle !in r
        invariant r == {} <==> forall j :: 0 <= j < i ==> ToSet(tranches[j].criterionIds) <= criteria
      {
        if !(ToSet(tranches[i].criterionIds) <= criteria) {
          r := r + {UnknownCriterion};
        }
      }
    }

    method CheckActiveTickets(active: seq<MicroTicket>, criteria: set<string>) returns (r: set<Reason>)
      ensures r == {} <==> forall t :: t in active ==> TicketFits(t, criteria, Ids(active))
      ensures DependencyCycle !in r
    {
      r := {};
      var ids := Ids(active);
      for i := 0 to |active|
        invariant DependencyCycle !in r
        invariant r == {} <==> forall j :: 0 <= j < i ==> TicketFits(active[j], criteria, ids)
      {
        var t := active[i];
        if !t.Ready() {
          r := r + {InvalidMicroticket};
          continue;
        }
        if !(ToSet(t.criterionIds) <= criteria) {
          r := r + {UnknownCriterion};
        }
        if t.maxFiles > maxFiles || t.maxChangedLines > maxLines {
          r := r + {PatchBudgetExceeded};
        }
        if !(ToSet(t.dependencies) <= ids) || t.ticketId in t.dependencies {
          r := r + {InvalidDependency};
        }
      }
    }

    ghost predicate ActivePasses(plan: DecompositionPlan, active: seq<MicroTicket>, criteria: set<string>) {
      && |active| <= maxActiveTickets
      && (forall t :: t in active ==> TicketFits(t, criteria, Ids(active)))
      && !HasCycle(EdgesOf(GraphOf(active)))
      && (plan.scopeChangeProposals != [] ==> forall t :: t in active ==> !Mentions(t.objective, "scope-change"))
      && (plan.unresolvedQuestions != [] ==> active == [])
    }

    /** The checks of the active tranche. */
    method CheckActive(plan: DecompositionPlan, active: seq<MicroTicket>, criteria: set<string>) returns (r: set<Reason>)
      ensures r == {} <==> ActivePasses(plan, active, criteria)
      ensures DependencyCycle in r <==> HasCycle(EdgesOf(GraphOf(active)))
    {
      hide TicketFits, HasCycle, Mentions, Ids, ToSet, GraphOf, EdgesOf;
      r := CheckActiveTickets(active, criteria);
      if |active| > maxActiveTickets {
        r := r + {ActiveTrancheLimitExceeded};
      }
      var graph := BuildGraph(active);
      var bad := PlanHasCycle(graph);
      if bad {
        r := r + {DependencyCycle};
      }
      if plan.scopeChangeProposals != [] && exists t :: t in active && Mentions(t.objective, "scope-change") {
        r := r + {ScopeExpansion};
      }
      if plan.unresolvedQuestions != [] && active != [] {
        r := r + {UnresolvedChoice};
      }
    }

    method Validate(feature: FeatureContract, plan: DecompositionPlan) returns (result: PlanValidationResult)
      ensures result.passed <==> Accepts(feature, plan)
      ensures result.passed <==> result.reasons == {}
      ensures DependencyCycle in result.reasons <==>
        var a := FirstActive(plan.tranches);
        a < |plan.tranches| && HasCycle(EdgesOf(GraphOf(plan.tranches[a].microtickets)))
    {
      hide CriterionCovered, ActivePasses, HasCycle, Ids, ToSet, GraphOf, EdgesOf;
      var r: set<Reason> := {};
      var criteria := ToSet(feature.criteria);
      if plan.featureId != feature.id {
        r := r + {FeatureMismatch};
      }
      if plan.boundContract != feature {
        r := r + {StaleFeatureContract};
      }
      if !(criteria <= plan.criterionCoverage.Keys) {
        r := r + {CriterionUncovered};
      }
      if !(plan.criterionCoverage.Keys <= criteria) {
        r := r + {UnknownCriterion};
      }
      var coverage := CheckCoverages(plan, criteria * plan.criterionCoverage.Keys);
      r := r + coverage;
      var a := FirstActive(plan.tranches);
      if a == |plan.tranches| {
        r := r + {InvalidMicroticket};
        return PlanValidationResult(false, r);
      }
      var scope := CheckTrancheCriteria(plan.tranches, criteria);
      var more := CheckActive(plan, plan.tranches[a].microtickets, criteria);
      r := r + scope + more;
      result := PlanValidationResult(r == {}, r);
    }
  }

  /** The next tranche takes over the ids it lists and leaves the others where they were. */
  lemma LocatedFurther(tranches: seq<Tranche>, i: nat, id: string, prior: map<string, nat>)
    requires i < |tranches|
    requires id in Ids(tranches[i].microtickets) || (id in prior && LocatedAt(tranches[..i], id, prior[id]))
    ensures LocatedAt(tranches[..i + 1], id, if id in Ids(tranches[i].microtickets) then i else prior[id])
  {
  }

  lemma ReferenceIsUnique(tranches: seq<Tranche>, criterion: string, ticketId: string, i: nat, k: nat)
    requires LocatedAt(tranches, ticketId, i) && FirstNamed(tranches[i].microtickets, ticketId, k)
    ensures ReferenceHolds(tranches, criterion, ticketId) <==>
      criterion in tranches[i].microtickets[k].criterionIds && criterion in tranches[i].criterionIds
  {
    if ReferenceHolds(tranches, criterion, ticketId) {
      var i': nat, k': nat :|
        && LocatedAt(tranches, ticketId, i')
        && FirstNamed(tranches[i'].microtickets, ticketId, k')
        && criterion in tranches[i'].microtickets[k'].criterionIds
        && criterion in tranches[i'].criterionIds;
      assert i' == i && k' == k by {
        assert !(i < i') && !(i' < i);
      }
    }
  }

  // ----- What passing means -----

  /** The entry a name has in the graph is that of the last ticket with the name. */
  lemma {:induction false} LastEntryWins(tickets: seq<MicroTicket>, id: string) returns (i: nat)
    requires id in Ids(tickets)
    ensures i < |tickets| && tickets[i].ticketId == id
    ensures forall j :: i < j < |tickets| ==> tickets[j].ticketId != id
    ensures GraphOf(tickets)[id] == ToSet(tickets[i].dependencies)
    decreases |tickets|
  {
    var last := |tickets| - 1;
    var front := tickets[..last];
    assert tickets == front + [tickets[last]];
    if tickets[last].ticketId == id {
      i := last;
    } else {
      i := LastEntryWins(front, id);
    }
  }

  lemma DistinctIdsKeepEveryEntry(tickets: seq<MicroTicket>, t: MicroTicket)
    requires Distinct(IdList(tickets)) && t in tickets
    ensures GraphOf(tickets)[t.ticketId] == ToSet(t.dependencies)
  {
    var j :| 0 <= j < |tickets| && tickets[j] == t;
    var i := LastEntryWins(tickets, t.ticketId);
    assert IdList(tickets)[i] == IdList(tickets)[j];
  }

  lemma DistinctIdsKeepEveryEdge(tickets: seq<MicroTicket>)
    requires Distinct(IdList(tickets))
    ensures EdgesOf(GraphOf(tickets)) == DeclaredEdges(tickets)
  {
    hide Distinct, IdList;
    var graph := GraphOf(tickets);
    forall e | e in EdgesOf(graph) ensures e in DeclaredEdges(tickets) {
      var t :| t in tickets && t.ticketId == e.0;
      DistinctIdsKeepEveryEntry(tickets, t);
      assert e.1 in ToSet(t.dependencies);
    }
    forall e | e in DeclaredEdges(tickets) ensures e in EdgesOf(graph) {
      var t :| t in tickets && t.ticketId == e.0 && e.1 in t.dependencies;
      DistinctIdsKeepEveryEntry(tickets, t);
      assert e.1 in graph[t.ticketId];
    }
  }

  /** A set of tickets whose prerequisites close and do not loop. */
  ghost predicate Schedulable(tickets: seq<MicroTicket>) {
    && (forall t :: t in tickets ==> ToSet(t.dependencies) <= Ids(tickets))
    && !HasCycle(DeclaredEdges(tickets))
  }

  /** There is an order of the ids in which every ticket comes after everything it declares. */
  lemma SchedulableHasOrder(tickets: seq<MicroTicket>) returns (order: seq<string>)
    requires Schedulable(tickets)
    ensures TopologicalOrder(DeclaredEdges(tickets), Ids(tickets), order)
  {
    order := AcyclicExtends(DeclaredEdges(tickets), Ids(tickets), []);
  }

  /** Whatever has been completed so far, some remaining ticket has all its dependencies done. */
  lemma NeverStuck(tickets: seq<MicroTicket>, done: set<string>)
    requires Schedulable(tickets)
    requires exists t :: t in tickets && t.ticketId !in done
    ensures exists t :: t in tickets && t.ticketId !in done && ToSet(t.dependencies) <= done
  {
    var left := Ids(tickets) - done;
    var edges := DeclaredEdges(tickets);
    var waiting :| waiting in tickets && waiting.ticketId !in done;
    assert waiting.ticketId in left;
    if Stuck(edges, left) {
      StuckHasCycle(edges, left);
    }
    var id :| id in left && !Waits(edges, left, id);
    var t :| t in tickets && t.ticketId == id;
    forall d | d in t.dependencies ensures d in done {
      assert d in ToSet(t.dependencies) && (id, d) in edges;
    }
  }

  /** Ids under which no ticket can hide another's dependencies: no two alike, or all alike. */
  predicate HideNothing(ids: seq<string>) {
    Distinct(ids) || AllEqual(ids)
  }

  /** What both validators check of the tickets' dependencies. */
  ghost predicate DependenciesPass(tickets: seq<MicroTicket>) {
    && (forall t :: t in tickets ==> ToSet(t.dependencies) <= Ids(tickets) && t.ticketId !in t.dependencies)
    && !HasCycle(EdgesOf(GraphOf(tickets)))
  }

  lemma PassingIsSchedulable(tickets: seq<MicroTicket>)
    requires DependenciesPass(tickets) && HideNothing(IdList(tickets))
    ensures Schedulable(tickets)
  {
    if Distinct(IdList(tickets)) {
      DistinctIdsKeepEveryEdge(tickets);
    } else {
      EqualIdsDeclareNothing(tickets);
      RankedHasNoCycle(DeclaredEdges(tickets), map[]);
    }
  }

  lemma SomeNameInSet(names: seq<string>)
    ensures names != [] ==> ToSet(names) != {}
  {
    if names != [] {
      assert names[0] in ToSet(names);
    }
  }

  lemma EqualIdsDeclareNothing(tickets: seq<MicroTicket>)
    requires DependenciesPass(tickets) && AllEqual(IdList(tickets))
    ensures DeclaredEdges(tickets) == {}
  {
    forall t | t in tickets ensures t.dependencies == [] {
      forall u | u in tickets ensures u.ticketId == t.ticketId {
        var i :| 0 <= i < |tickets| && tickets[i] == t;
        var j :| 0 <= j < |tickets| && tickets[j] == u;
        assert IdList(tickets)[i] == IdList(tickets)[j];
      }
      assert Ids(tickets) <= {t.ticketId};
      assert ToSet(t.dependencies) == {};
      SomeNameInSet(t.dependencies);
    }
  }

  lemma AcceptedPlanIsSchedulable(v: PlanValidator, feature: FeatureContract, plan: DecompositionPlan)
    requires v.Accepts(feature, plan)
    requires HideNothing(IdList(plan.tranches[FirstActive(plan.tranches)].microtickets))
    ensures Schedulable(plan.tranches[FirstActive(plan.tranches)].microtickets)
  {
    PassingIsSchedulable(plan.tranches[FirstActive(plan.tranches)].microtickets);
  }

  lemma AcceptedTrancheIsSchedulable(v: PlanValidator, feature: FeatureContract, tranche: Tranche, coarse: Tranche)
    requires v.AcceptsTranche(feature, tranche, coarse)
    requires HideNothing(IdList(tranche.microtickets))
    ensures Schedulable(tranche.microtickets)
  {
    PassingIsSchedulable(tranche.microtickets);
  }

  /** Every criterion of the feature has a ticket that declares it, inside a tranche that declares it. */
  lemma AcceptedPlanCovers(v: PlanValidator, feature: FeatureContract, plan: DecompositionPlan, criterion: string)
    requires v.Accepts(feature, plan) && criterion in feature.criteria
    ensures exists tranche, ticket ::
      && tranche in plan.tranches && ticket in tranche.microtickets
      && ticket.ticketId in plan.criterionCoverage[criterion]
      && criterion in ticket.criterionIds && criterion in tranche.criterionIds
  {
    assert CriterionCovered(plan, criterion);
    var id := plan.criterionCoverage[criterion][0];
    assert ReferenceHolds(plan.tranches, criterion, id);
    var i: nat, k: nat :| LocatedAt(plan.tranches, id, i) && FirstNamed(plan.tranches[i].microtickets, id, k)
      && criterion in plan.tranches[i].microtickets[k].criterionIds && criterion in plan.tranches[i].criterionIds;
    assert plan.tranches[i].microtickets[k] in plan.tranches[i].microtickets;
  }

  /** Every active ticket of an accepted plan is sound, names its files, and keeps within the validator's budget. */
  lemma AcceptedTicketsFit(v: PlanValidator, feature: FeatureContract, plan: DecompositionPlan, t: MicroTicket)
    requires v.Accepts(feature, plan) && t in plan.tranches[FirstActive(plan.tranches)].microtickets
    ensures t.sound && 1 <= t.paths <= t.maxFiles <= v.maxFiles && t.maxChangedLines <= v.maxLines
    ensures plan.scopeChangeProposals == [] || !Mentions(t.objective, "scope-change")
    ensures plan.unresolvedQuestions == []
  {
  }

  // ----- Every other list of ids hides a cycle -----

  function Ticket(v: PlanValidator, id: string, dependencies: seq<string>): MicroTicket {
    MicroTicket(id, "Extend the parser", ["c"], dependencies, 1, if v.maxLines < 1 then v.maxLines else 1, 1, true)
  }

  /**
    Tickets with these ids, where ids[j] comes again later and ids[m] is another
    id: the first waits for the second and the second for the first, but a later
    entry that waits for nothing replaces the first one's.
   */
  function Shadowed(v: PlanValidator, ids: seq<string>, j: nat, m: nat): seq<MicroTicket>
    requires j < |ids| && m < |ids|
  {
    seq(|ids|, i requires 0 <= i < |ids| =>
      Ticket(v, ids[i], if i == j then [ids[m]] else if ids[i] == ids[m] then [ids[j]] else []))
  }

  /** The only edge left in the graph goes from the second to the first. */
  lemma ShadowedEdge(v: PlanValidator, ids: seq<string>, j: nat, k: nat, m: nat, e: (string, string))
    requires j < k < |ids| && m < |ids| && ids[j] == ids[k] != ids[m]
    requires e in EdgesOf(GraphOf(Shadowed(v, ids, j, m)))
    ensures e == (ids[m], ids[j])
  {
    var tickets := Shadowed(v, ids, j, m);
    var i := LastEntryWins(tickets, e.0);
    assert tickets[k].ticketId == tickets[j].ticketId;
    assert e.1 in ToSet(tickets[i].dependencies);
  }

  lemma ShadowedPasses(v: PlanValidator, ids: seq<string>, j: nat, k: nat, m: nat)
    requires j < k < |ids| && m < |ids| && ids[j] == ids[k] != ids[m]
    ensures DependenciesPass(Shadowed(v, ids, j, m))
  {
    var tickets := Shadowed(v, ids, j, m);
    assert tickets[j] in tickets && tickets[m] in tickets;
    var edges := EdgesOf(GraphOf(tickets));
    hide GraphOf;
    forall e | e in edges ensures e == (ids[m], ids[j]) {
      ShadowedEdge(v, ids, j, k, m, e);
    }
    RankedHasNoCycle(edges, map[ids[m] := 0, ids[j] := 1]);
  }

  lemma ShadowedLoops(v: PlanValidator, ids: seq<string>, j: nat, m: nat)
    requires j < |ids| && m < |ids| && ids[j] != ids[m]
    ensures !Schedulable(Shadowed(v, ids, j, m))
  {
    var tickets := Shadowed(v, ids, j, m);
    var declared := DeclaredEdges(tickets);
    assert tickets[j] in tickets && ids[m] in tickets[j].dependencies;
    assert tickets[m] in tickets && ids[j] in tickets[m].dependencies;
    EdgeReaches(declared, ids[j], ids[m]);
    EdgeReaches(declared, ids[m], ids[j]);
    ReachesTransitive(declared, ids[j], ids[m], ids[j]);
  }

  /** A list that hides something has an id that comes again and another id. */
  lemma HidingPlaces(ids: seq<string>) returns (j: nat, k: nat, m: nat)
    requires !HideNothing(ids)
    ensures j < k < |ids| && m < |ids| && ids[j] == ids[k] != ids[m]
  {
    j, k :| 0 <= j < k < |ids| && ids[j] == ids[k];
    var i, n :| 0 <= i < n < |ids| && ids[i] != ids[n];
    m := if ids[i] != ids[j] then i else n;
  }

  const OneCriterion := FeatureContract("f", ["c"], "r")

  lemma HiddenCycle(v: PlanValidator, ids: seq<string>) returns (tickets: seq<MicroTicket>)
    requires !HideNothing(ids)
    ensures IdList(tickets) == ids && tickets != []
    ensures DependenciesPass(tickets) && !Schedulable(tickets)
    ensures forall t :: t in tickets ==> t == Ticket(v, t.ticketId, t.dependencies)
  {
    var j, k, m := HidingPlaces(ids);
    tickets := Shadowed(v, ids, j, m);
    ShadowedPasses(v, ids, j, k, m);
    ShadowedLoops(v, ids, j, m);
  }

  /** A validator that allows no file passes no ticket. */
  lemma NoFilesNoTickets(v: PlanValidator, tickets: seq<MicroTicket>, criteria: set<string>)
    requires v.maxFiles < 1 && forall t :: t in tickets ==> v.TicketFits(t, criteria, Ids(tickets))
    ensures IdList(tickets) == []
  {
    FirstIsIn(tickets);
  }

  lemma FirstIsIn(tickets: seq<MicroTicket>)
    ensures tickets != [] ==> tickets[0] in tickets
  {
  }

  lemma HiddenCycleInTranche(v: PlanValidator, ids: seq<string>) returns (tranche: Tranche)
    requires !HideNothing(ids) && v.maxFiles >= 1
    ensures IdList(tranche.microtickets) == ids
    ensures v.AcceptsTranche(OneCriterion, tranche, Tranche("t", 0, ["c"], []))
    ensures !Schedulable(tranche.microtickets)
  {
    var tickets := HiddenCycle(v, ids);
    tranche := Tranche("t", 0, ["c"], tickets);
  }

  /** The one plan around these tickets: a single tranche, its criterion covered by the first of them. */
  function PlanAround(tickets: seq<MicroTicket>): DecompositionPlan
    requires tickets != []
  {
    DecompositionPlan("f", OneCriterion, map["c" := [tickets[0].ticketId]], [Tranche("t", 0, ["c"], tickets)], [], [])
  }

  lemma FirstTicketCovers(tickets: seq<MicroTicket>)
    requires tickets != [] && tickets[0].criterionIds == ["c"]
    ensures CriterionCovered(PlanAround(tickets), "c")
  {
    var tranches := PlanAround(tickets).tranches;
    var id := tickets[0].ticketId;
    assert tickets[0] in tickets;
    assert LocatedAt(tranches, id, 0) && FirstNamed(tranches[0].microtickets, id, 0);
    assert ReferenceHolds(tranches, "c", id);
  }

  lemma HiddenCycleInPlan(v: PlanValidator, ids: seq<string>) returns (plan: DecompositionPlan)
    requires !HideNothing(ids) && v.maxFiles >= 1 && |ids| <= v.maxActiveTickets
    ensures v.Accepts(OneCriterion, plan)
    ensures IdList(plan.tranches[FirstActive(plan.tranches)].microtickets) == ids
    ensures !Schedulable(plan.tranches[FirstActive(plan.tranches)].microtickets)
  {
    var tickets := HiddenCycle(v, ids);
    plan := PlanAround(tickets);
    FirstTicketCovers(tickets);
    assert plan.tranches[0].microtickets == tickets && FirstActive(plan.tranches) == 0;
    assert ToSet(OneCriterion.criteria) == {"c"};
    hide Schedulable, HideNothing, CriterionCovered;
  }

  /**
    Which lists of ids are safe. The validator does not look for repeated ids,
    and a repeated one hides the earlier entry's dependencies; so every tranche
    it passes with these ids can be scheduled exactly when the ids are all
    distinct or all the same, or it allows no file and so passes no ticket.
   */
  lemma TrancheIdsDecide(v: PlanValidator, ids: seq<string>)
    ensures HideNothing(ids) || v.maxFiles < 1 <==>
      forall feature, tranche, coarse ::
        v.AcceptsTranche(feature, tranche, coarse) && IdList(tranche.microtickets) == ids ==> Schedulable(tranche.microtickets)
  {
    forall feature, tranche, coarse
      | (HideNothing(ids) || v.maxFiles < 1) && v.AcceptsTranche(feature, tranche, coarse) && IdList(tranche.microtickets) == ids
      ensures Schedulable(tranche.microtickets)
    {
      if v.maxFiles < 1 {
        NoFilesNoTickets(v, tranche.microtickets, ToSet(feature.criteria) * ToSet(coarse.criterionIds));
      }
      AcceptedTrancheIsSchedulable(v, feature, tranche, coarse);
    }
    if !HideNothing(ids) && v.maxFiles >= 1 {
      var tranche := HiddenCycleInTranche(v, ids);
    }
  }

  /** The lists of ids no accepted plan can go wrong with: they hide nothing, or no plan with them is accepted. */
  predicate SafeInPlans(v: PlanValidator, ids: seq<string>) {
    HideNothing(ids) || v.maxFiles < 1 || |ids| > v.maxActiveTickets
  }

  lemma SafePlanIsSchedulable(v: PlanValidator, feature: FeatureContract, plan: DecompositionPlan)
    requires v.Accepts(feature, plan) && SafeInPlans(v, IdList(plan.tranches[FirstActive(plan.tranches)].microtickets))
    ensures Schedulable(plan.tranches[FirstActive(plan.tranches)].microtickets)
  {
    if v.maxFiles < 1 {
      NoFilesNoTickets(v, plan.tranches[FirstActive(plan.tranches)].microtickets, ToSet(feature.criteria));
    }
    AcceptedPlanIsSchedulable(v, feature, plan);
  }

  /** The same for plans, as far as their active tranche may be that long. */
  lemma PlanIdsDecide(v: PlanValidator, ids: seq<string>)
    ensures SafeInPlans(v, ids) <==>
      forall feature, plan ::
        v.Accepts(feature, plan) && IdList(plan.tranches[FirstActive(plan.tranches)].microtickets) == ids
        ==> Schedulable(plan.tranches[FirstActive(plan.tranches)].microtickets)
  {
    hide SafeInPlans;
    forall feature, plan
      | SafeInPlans(v, ids) && v.Accepts(feature, plan) && IdList(plan.tranches[FirstActive(plan.tranches)].microtickets) == ids
      ensures Schedulable(plan.tranches[FirstActive(plan.tranches)].microtickets)
    {
      SafePlanIsSchedulable(v, feature, plan);
    }
    if !SafeInPlans(v, ids) {
      UnsafeInPlans(v, ids);
    }
  }

  lemma UnsafeInPlans(v: PlanValidator, ids: seq<string>)
    requires !SafeInPlans(v, ids)
    ensures exists plan ::
      v.Accepts(OneCriterion, plan) && IdList(plan.tranches[FirstActive(plan.tranches)].microtickets) == ids
      && !Schedulable(plan.tranches[FirstActive(plan.tranches)].microtickets)
  {
    var plan := HiddenCycleInPlan(v, ids);
    hide *;
  }
}
