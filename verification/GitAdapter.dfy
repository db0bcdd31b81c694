/**
  GitWorktreeAdapter as it runs: one controller's Git commands, with any number
  of other controllers acting between them. Others may add commits, anchor a
  tranche that has no head, and move a head to a descendant; that this is all
  they do is what IntegrationSafety proves of them.
 */
module GitAdapter {
  import opened Options
  import opened CommitGraph

  type TrancheId = string

  datatype GitError = UnknownRevision | HeadMissing | HeadConflict | UnableToCreate

  datatype Result<+T> = Ok(value: T) | Err(error: GitError)

  datatype Other =
    | Commits(commit: Commit)
    | Anchors(tranche: TrancheId, sha: Sha)
    | Forwards(tranche: TrancheId, sha: Sha)

  /** From one moment to a later one: commits are only added, heads only move to descendants. */
  ghost predicate Evolves(store: Store, heads: map<TrancheId, Sha>, store': Store, heads': map<TrancheId, Sha>) {
    && store <= store'
    && forall r :: r in heads ==> r in heads' && Ancestor(store', heads[r], heads'[r])
  }

  lemma EvolvesTransitive(s0: Store, h0: map<TrancheId, Sha>, s1: Store, h1: map<TrancheId, Sha>, s2: Store, h2: map<TrancheId, Sha>)
    requires Evolves(s0, h0, s1, h1) && Evolves(s1, h1, s2, h2)
    ensures Evolves(s0, h0, s2, h2)
  {
    forall r | r in h0 ensures r in h2 && Ancestor(s2, h0[r], h2[r]) {
      AncestorStable(s1, s2, h0[r], h1[r]);
      AncestorTransitive(s2, h0[r], h1[r], h2[r]);
    }
  }

  class GitWorktreeAdapter {
    var store: Store
    var heads: map<TrancheId, Sha>

    ghost predicate Valid() reads this {
      && WellFormed(store)
      && forall r :: r in heads ==> heads[r] < |store|
    }

    twostate predicate Evolved() reads this {
      Evolves(old(store), old(heads), store, heads)
    }

    /** Other controllers act, in any way they may. */
    method Others(script: seq<Other>)
      requires Valid()
      modifies this
      ensures Valid() && Evolved()
      ensures script == [] ==> store == old(store) && heads == old(heads)
    {
      for i := 0 to |script|
        invariant Valid() && Evolves(old(store), old(heads), store, heads)
        invariant script == [] ==> store == old(store) && heads == old(heads)
      {
        ghost var s, h := store, heads;
        match script[i] {
          case Commits(commit) =>
            if forall p :: p in commit.parents ==> p < |store| {
              store := store + [commit];
            }
          case Anchors(r, sha) =>
            if r !in heads && sha < |store| {
              heads := heads[r := sha];
            }
          case Forwards(r, sha) =>
            var allowed := IsDescendant(r, sha);
            if allowed {
              heads := heads[r := sha];
            }
        }
        EvolvesTransitive(old(store), old(heads), s, h, store, heads);
      }
    }

    method IsDescendant(r: TrancheId, sha: Sha) returns (yes: bool)
      requires Valid()
      ensures yes ==> r in heads && sha < |store| && Ancestor(store, heads[r], sha)
    {
      yes := r in heads && sha < |store| && heads[r] in store[sha].parents;
      if yes {
        ParentIsAncestor(store, heads[r], sha);
      }
    }

    /** rev-parse --verify of a commit. */
    method RevParse(sha: Sha) returns (r: Result<Sha>)
      ensures r == if sha < |store| then Ok(sha) else Err(UnknownRevision)
    {
      r := if sha < |store| then Ok(sha) else Err(UnknownRevision);
    }

    method ShowRef(tranche: TrancheId) returns (current: Option<Sha>)
      ensures current == if tranche in heads then Some(heads[tranche]) else None
    {
      current := if tranche in heads then Some(heads[tranche]) else None;
    }

    /** update-ref with an expected old value; None stands for forty zeros. */
    method UpdateRef(tranche: TrancheId, sha: Sha, expected: Option<Sha>) returns (ok: bool)
      modifies this
      ensures store == old(store)
      ensures ok <==> old(if tranche in heads then Some(heads[tranche]) else None) == expected
      ensures heads == if ok then old(heads)[tranche := sha] else old(heads)
    {
      var current := ShowRef(tranche);
      ok := current == expected;
      if ok {
        heads := heads[tranche := sha];
      }
    }

    /**
      resolve_execution_base. With a commit to plan from it always answers: the
      error for a head that can be neither read nor created cannot be reached.
      The answer is a value the head had during the call; an anchored head is
      left alone.
     */
    method ResolveExecutionBase(tranche: Option<TrancheId>, planningBase: Sha, others: seq<Other>, afterwards: seq<Other>) returns (r: Result<Sha>)
      requires Valid()
      modifies this
      ensures Valid() && Evolved()
      ensures r.Ok? <==> planningBase < |old(store)|
      ensures r.Err? ==> r.error == UnknownRevision && heads == old(heads) && store == old(store)
      ensures r.Ok? && tranche == None ==> r.value == planningBase && heads == old(heads)
      ensures r.Ok? && tranche.Some? && tranche.value !in old(heads) && others == [] ==>
        r.value == planningBase && heads == old(heads)[tranche.value := planningBase]
      ensures r.Ok? && tranche.Some? ==>
        && tranche.value in heads && r.value < |store| && Ancestor(store, r.value, heads[tranche.value])
        && (tranche.value in old(heads) ==> r.value == old(heads)[tranche.value])
    {
      r := RevParse(planningBase);
      if r.Err? || tranche == None {
        return;
      }
      var current := ShowRef(tranche.value);
      if current.Some? {
        return Ok(current.value);
      }
      Others(others);
      label before:
      var created := UpdateRef(tranche.value, planningBase, None);
      if created {
        return Ok(planningBase);
      }
      label lost:
      Others(afterwards);
      EvolvesTransitive(old(store), old(heads), old@lost(store), old@lost(heads), store, heads);
      current := ShowRef(tranche.value);
      if current.Some? {
        return Ok(current.value);
      }
      r := Err(UnableToCreate);
    }

    /** existing_execution_base: reads, never creates or moves. */
    method ExistingExecutionBase(tranche: Option<TrancheId>, planningBase: Sha) returns (r: Result<Sha>)
      requires Valid()
      ensures r == if planningBase >= |store| then Err(UnknownRevision)
                   else if tranche == None then Ok(planningBase)
                   else if tranche.value in heads then Ok(heads[tranche.value])
                   else Err(HeadMissing)
    {
      r := RevParse(planningBase);
      if r.Err? || tranche == None {
        return;
      }
      var current := ShowRef(tranche.value);
      r := if current.Some? then Ok(current.value) else Err(HeadMissing);
    }

    /**
      advance_integration_head moves the head exactly when nobody else has moved
      it first. It does not look at ancestry: with nobody else about, a move it
      makes keeps the head going forward exactly when the accepted commit
      descends from the expected one, which is what its callers check.
     */
    method AdvanceIntegrationHead(tranche: Option<TrancheId>, expectedBase: Sha, accepted: Sha, others: seq<Other>) returns (r: Result<Sha>)
      requires Valid()
      modifies this
      ensures Valid() && old(store) <= store
      ensures Ancestor(old(store), expectedBase, accepted) ==> Evolved()
      ensures others == [] && r.Ok? && tranche.Some? ==> (Evolved() <==> Ancestor(store, expectedBase, accepted))
      ensures tranche == None ==> r == Ok(accepted) && heads == old(heads)
      ensures r.Ok? ==> r.value == accepted
      ensures others == [] && tranche.Some? && expectedBase < |old(store)| && accepted < |old(store)|
          && tranche.value in old(heads) && old(heads)[tranche.value] == expectedBase
        ==> r == Ok(accepted) && heads == old(heads)[tranche.value := accepted]
      ensures r.Ok? && tranche.Some? ==> tranche.value in heads && heads[tranche.value] == accepted
      ensures r == Err(HeadConflict) ==> tranche.Some? && !(tranche.value in heads && heads[tranche.value] == expectedBase)
      ensures r == Err(UnknownRevision) <==> tranche.Some? && (expectedBase >= |old(store)| || accepted >= |old(store)|)
      ensures r == Err(UnknownRevision) ==> heads == old(heads) && store == old(store)
      ensures r.Err? ==> r.error == HeadConflict || r.error == UnknownRevision
      ensures others == [] && r.Err? ==> heads == old(heads)
    {
      if tranche == None {
        return Ok(accepted);
      }
      var expected := RevParse(expectedBase);
      if expected.Err? {
        return expected;
      }
      var resolved := RevParse(accepted);
      if resolved.Err? {
        return resolved;
      }
      Others(others);
      if Ancestor(old(store), expectedBase, accepted) {
        AncestorStable(old(store), store, expectedBase, accepted);
      }
      label before:
      var moved := UpdateRef(tranche.value, accepted, Some(expectedBase));
      if !moved {
        return Err(HeadConflict);
      }
      if Ancestor(store, expectedBase, accepted) {
        EvolvesTransitive(old(store), old(heads), old@before(store), old@before(heads), store, heads);
      }
      r := Ok(accepted);
    }
  }
}
