/**
  When one integration left to itself succeeds, and what it does when it does
  not: exactly which worktrees are committed, and exactly which are refused with
  nothing changed.
 */
module IntegrationOutcome {
  import opened Options
  import opened CommitGraph
  import opened IntegrationHead
  import opened IntegrationReplay

  // ----- The checks before the commit -----

  ghost predicate PathsOk(w: World, t: Ticket)
    requires Known(w, t)
  {
    StatusPaths(w, t) != {} && StatusPaths(w, t) <= w.candidates[t].authorized
  }

  /** The files, new ones counted only if approved, differ from the base by the accepted diff. */
  ghost predicate FingerprintOk(w: World, t: Ticket)
    requires Known(w, t)
  {
    var c := w.candidates[t];
    var base := w.store[c.base].tree;
    DiffOf(base, Restrict(w.worktrees[t].files, base, c.approvedNew)) == c.fingerprint
  }

  ghost predicate IntentOk(w: World, t: Ticket)
    requires Known(w, t)
  {
    t in w.intents ==> w.intents[t] == Intent(w.candidates[t], false)
  }

  /** Everything looked at before the commit is in order. */
  ghost predicate Passes(w: World, t: Ticket)
    requires Known(w, t)
  {
    && Ancestor(w.store, w.candidates[t].startingSha, w.candidates[t].base)
    && PathsOk(w, t) && FingerprintOk(w, t)
    && ExistingBase(w, w.candidates[t]) == Some(w.candidates[t].base)
    && IntentOk(w, t)
  }

  /** Where a lone integration can be before it has changed anything, and what it has seen to be in order by then. */
  ghost predicate Looking(w: World, t: Ticket, p: Proc)
    requires Known(w, t)
  {
    var c := w.candidates[t];
    match p
    case Started(u) => u == t
    case HeadSeen(u, live) => u == t && live == c.base
    case Inspecting(u) => u == t && Ancestor(w.store, c.startingSha, c.base)
    case Fingerprinting(u) => u == t && Ancestor(w.store, c.startingSha, c.base) && PathsOk(w, t)
    case HeadCheck(u) => u == t && Ancestor(w.store, c.startingSha, c.base) && PathsOk(w, t) && FingerprintOk(w, t)
    case Intending(u) =>
      u == t && Ancestor(w.store, c.startingSha, c.base) && PathsOk(w, t) && FingerprintOk(w, t) && ExistingBase(w, c) == Some(c.base)
    case Failed => true
    case _ => false
  }

  function LooksLeft(p: Proc): nat {
    if p.Started? then 6
    else if p.HeadSeen? then 5
    else if p.Inspecting? then 4
    else if p.Fingerprinting? then 3
    else if p.HeadCheck? then 2
    else if p.Intending? then 1
    else 0
  }

  /** One look of an integration that will be refused: it changes nothing and comes closer to the refusal. */
  lemma LookRefuses(w: World, t: Ticket, p: Proc)
    requires Known(w, t) && w.worktrees[t].head == w.candidates[t].base && !Passes(w, t) && Looking(w, t, p)
    ensures Command(w, p).0 == w && Looking(w, t, Command(w, p).1)
    ensures LooksLeft(Command(w, p).1) <= if LooksLeft(p) > 0 then LooksLeft(p) - 1 else 0
  {
    hide DiffOf, Restrict, Ancestor, StatusPaths, ExistingBase, Exact, CommitIn, MoveHead;
  }

  /** The world with only the controllers' places changed. */
  lemma PlacesAside(w: World, procs: map<nat, Proc>, t: Ticket, p: Proc)
    requires Known(w, t)
    ensures var w' := w.(procs := procs);
      Known(w', t) && (Passes(w', t) <==> Passes(w, t)) && (Looking(w', t, p) <==> Looking(w, t, p))
  {
    assert StatusPaths(w.(procs := procs), t) == StatusPaths(w, t);
    hide DiffOf, Restrict, Ancestor, StatusPaths;
  }

  lemma {:induction false} LooksRefuse(w: World, t: Ticket, i: nat, n: nat)
    requires Known(w, t) && w.worktrees[t].head == w.candidates[t].base && !Passes(w, t) && Looking(w, t, ProcOf(w, i))
    ensures var later := Alone(w, i, n);
      && later == w.(procs := later.procs) && Looking(w, t, ProcOf(later, i))
      && LooksLeft(ProcOf(later, i)) <= if n < LooksLeft(ProcOf(w, i)) then LooksLeft(ProcOf(w, i)) - n else 0
    decreases n
  {
    hide Command, Passes, Looking, LooksLeft;
    if n > 0 {
      LooksRefuse(w, t, i, n - 1);
      var before := Alone(w, i, n - 1);
      var p := ProcOf(before, i);
      PlacesAside(w, before.procs, t, p);
      LookRefuses(before, t, p);
      PlacesAside(w, before.procs, t, Command(before, p).1);
    }
  }

  /**
    A worktree still at its base that does not pass: whatever is wrong with it,
    integration left to itself ends refused, and at no moment has it changed
    anything.
   */
  lemma FailingWorktreeIsRefused(w: World, t: Ticket, i: nat, n: nat)
    requires Known(w, t) && w.worktrees[t].head == w.candidates[t].base && !Passes(w, t)
    ensures var later := Alone(Happen(w, Begin(i, IntegrateCandidate(t))), i, n);
      later == w.(procs := later.procs) && (n >= 6 ==> ProcOf(later, i) == Failed)
  {
    var begun := Happen(w, Begin(i, IntegrateCandidate(t)));
    PlacesAside(w, begun.procs, t, Started(t));
    LooksRefuse(begun, t, i, n);
    hide Passes, Alone;
  }

  // ----- A worktree that passes, and is committed, but is not the candidate -----

  /** What a commit of all the files would not be: a change at all, and the accepted one. */
  ghost predicate NotTheCandidate(w: World, t: Ticket)
    requires Known(w, t)
  {
    var c := w.candidates[t];
    c.fingerprint.Keys == {} || DiffOf(w.store[c.base].tree, w.worktrees[t].files) != c.fingerprint
  }

  /** Passing looks at the files without the new ones that were not approved; the commit has them. */
  lemma PassingIsReadyUnlessNotTheCandidate(w: World, t: Ticket)
    requires Known(w, t) && w.worktrees[t].head == w.candidates[t].base && Passes(w, t)
    ensures Ready(w, t) <==> !NotTheCandidate(w, t)
  {
    var c, files := w.candidates[t], w.worktrees[t].files;
    var base := w.store[c.base].tree;
    if DiffOf(base, files) == c.fingerprint {
      DiffDetermines(base, files, Restrict(files, base, c.approvedNew));
    }
    hide DiffOf, Restrict, Ancestor, StatusPaths;
  }

  /** The world as integration of such a worktree leaves it: no head moved, nothing returned, the files as they were. */
  ghost predicate NothingInstalled(before: World, w: World, t: Ticket)
    requires Known(before, t)
  {
    && Known(w, t) && before.store <= w.store
    && w.heads == before.heads && w.moves == before.moves && w.returned == before.returned
    && w.candidates == before.candidates && w.worktrees[t].files == before.worktrees[t].files
  }

  ghost predicate Doomed(before: World, w: World, t: Ticket, p: Proc)
    requires Known(before, t)
  {
    && NothingInstalled(before, w, t)
    && var c, wt := w.candidates[t], w.worktrees[t];
      match p
      case Started(u) => u == t && wt.head == c.base
      case HeadSeen(u, live) => u == t && wt.head == c.base == live
      case Inspecting(u) => u == t && wt.head == c.base
      case Fingerprinting(u) => u == t && wt.head == c.base
      case HeadCheck(u) => u == t && wt.head == c.base
      case Intending(u) => u == t && wt.head == c.base
      case Staging(u, m) => u == t && m == Checked && wt.head == c.base
      case Quiet(u, m) => u == t && m == Checked && wt.head == c.base && wt.index == wt.files
      case Committing(u, m) => u == t && m == Checked && wt.head == c.base && wt.index == wt.files
      case NamingHead(u, m) => u == t && m == Checked && w.store[wt.head].tree == wt.files
      case Verifying(u, sha) => u == t && sha < |w.store| && w.store[sha].tree == wt.files
      case Failed => true
      case _ => false
  }

  lemma DoomedEarly(before: World, w: World, t: Ticket, p: Proc)
    requires Known(before, t) && Doomed(before, w, t, p) && NotTheCandidate(before, t) && (p.Started? || p.HeadSeen? || p.Inspecting? || p.Failed?)
    ensures var (w', p') := Command(w, p);
      Doomed(before, w', t, p') && Left(p') <= if Left(p) > 0 then Left(p) - 1 else 0
  {
    hide DiffOf, Restrict, Ancestor, StatusPaths, ExistingBase, Exact, MoveHead, CasMatches, Return, CommitIn, HeadTree;
  }

  lemma DoomedChecks(before: World, w: World, t: Ticket, p: Proc)
    requires Known(before, t) && Doomed(before, w, t, p) && NotTheCandidate(before, t) && (p.Fingerprinting? || p.HeadCheck? || p.Intending?)
    ensures var (w', p') := Command(w, p);
      Doomed(before, w', t, p') && Left(p') <= if Left(p) > 0 then Left(p) - 1 else 0
  {
    hide DiffOf, Restrict, Ancestor, StatusPaths, ExistingBase, Exact, MoveHead, CasMatches, Return, CommitIn, HeadTree;
  }

  lemma DoomedStages(before: World, w: World, t: Ticket, p: Proc)
    requires Known(before, t) && Doomed(before, w, t, p) && NotTheCandidate(before, t) && (p.Staging? || p.Quiet?)
    ensures var (w', p') := Command(w, p);
      Doomed(before, w', t, p') && Left(p') <= if Left(p) > 0 then Left(p) - 1 else 0
  {
    hide DiffOf, Restrict, Ancestor, StatusPaths, ExistingBase, Exact, MoveHead, CasMatches, Return, CommitIn;
  }

  lemma DoomedCommits(before: World, w: World, t: Ticket, p: Proc)
    requires Known(before, t) && Doomed(before, w, t, p) && NotTheCandidate(before, t) && p.Committing?
    ensures var (w', p') := Command(w, p);
      Doomed(before, w', t, p') && Left(p') <= if Left(p) > 0 then Left(p) - 1 else 0
  {
    hide DiffOf, Restrict, Ancestor, StatusPaths, ExistingBase, Exact, MoveHead, CasMatches, Return;
  }

  lemma DoomedNames(before: World, w: World, t: Ticket, p: Proc)
    requires Known(before, t) && Doomed(before, w, t, p) && NotTheCandidate(before, t) && p.NamingHead?
    ensures var (w', p') := Command(w, p);
      Doomed(before, w', t, p') && Left(p') <= if Left(p) > 0 then Left(p) - 1 else 0
  {
    hide DiffOf, Restrict, Ancestor, StatusPaths, ExistingBase, Exact, MoveHead, CasMatches, Return, CommitIn;
  }

  /** The look at the finished commit finds that it is not the candidate. */
  lemma DoomedIsFoundOut(before: World, w: World, t: Ticket, p: Proc)
    requires Known(before, t) && Doomed(before, w, t, p) && NotTheCandidate(before, t) && p.Verifying?
    ensures Command(w, p) == (w, Failed)
  {
    hide Restrict, Ancestor, StatusPaths, ExistingBase, CommitIn, MoveHead;
  }

  lemma {:induction false} DoomedFails(before: World, w: World, t: Ticket, i: nat, n: nat)
    requires Known(before, t) && Doomed(before, w, t, ProcOf(w, i)) && NotTheCandidate(before, t)
    ensures var later := Alone(w, i, n);
      Doomed(before, later, t, ProcOf(later, i))
      && Left(ProcOf(later, i)) <= if n < Left(ProcOf(w, i)) then Left(ProcOf(w, i)) - n else 0
    decreases n
  {
    hide Command, Left, Known, NotTheCandidate;
    if n > 0 {
      DoomedFails(before, w, t, i, n - 1);
      var v := Alone(w, i, n - 1);
      var p := ProcOf(v, i);
      DoomedStep(before, v, t, p);
      var (v', p') := Command(v, p);
      DoomedAside(before, v', v'.procs[i := p'], t, p');
    }
  }

  lemma DoomedAside(before: World, w: World, procs: map<nat, Proc>, t: Ticket, p: Proc)
    requires Known(before, t) && Doomed(before, w, t, p)
    ensures Doomed(before, w.(procs := procs), t, p)
  {
  }

  lemma DoomedStep(before: World, w: World, t: Ticket, p: Proc)
    requires Known(before, t) && Doomed(before, w, t, p) && NotTheCandidate(before, t)
    ensures var (w', p') := Command(w, p);
      Doomed(before, w', t, p') && Left(p') <= if Left(p) > 0 then Left(p) - 1 else 0
  {
    if p.Verifying? {
      DoomedIsFoundOut(before, w, t, p);
    } else if p.Staging? || p.Quiet? {
      DoomedStages(before, w, t, p);
    } else if p.Committing? {
      DoomedCommits(before, w, t, p);
    } else if p.NamingHead? {
      DoomedNames(before, w, t, p);
    } else if p.Fingerprinting? || p.HeadCheck? || p.Intending? {
      DoomedChecks(before, w, t, p);
    } else {
      DoomedEarly(before, w, t, p);
    }
    hide Command;
  }

  // ----- Exactly when -----

  /** The world after one controller starts integration and n of its commands. */
  ghost function Integrating(w: World, t: Ticket, i: nat, n: nat): World {
    Alone(Happen(w, Begin(i, IntegrateCandidate(t))), i, n)
  }

  lemma ReadyIntegrates(w: World, t: Ticket, i: nat, n: nat)
    requires Ready(w, t) && n >= 14
    ensures ProcOf(Integrating(w, t, i, n), i) == Integrated(t, |w.store|)
    ensures Committed(Integrating(w, t, i, n), t, |w.store|) && Installed(Integrating(w, t, i, n), t, |w.store|)
  {
    hide Ready, Committed, Installed, Alone, Happen;
    EveryCrashPointRecovers(w, t, [], i, n);
    assert AfterCutOffs(w, t, []) == w;
  }

  lemma NotTheCandidateFails(w: World, t: Ticket, i: nat, n: nat)
    requires Known(w, t) && w.worktrees[t].head == w.candidates[t].base && NotTheCandidate(w, t) && n >= 14
    ensures ProcOf(Integrating(w, t, i, n), i) == Failed && NothingInstalled(w, Integrating(w, t, i, n), t)
  {
    hide Alone, Command, NotTheCandidate, HeadTree, StatusPaths, Exact;
    var begun := Happen(w, Begin(i, IntegrateCandidate(t)));
    assert Doomed(w, begun, t, Started(t));
    DoomedFails(w, begun, t, i, n);
    DoomedAtTheEnd(w, Integrating(w, t, i, n), t, ProcOf(Integrating(w, t, i, n), i));
  }

  lemma DoomedAtTheEnd(before: World, w: World, t: Ticket, p: Proc)
    requires Known(before, t) && Doomed(before, w, t, p) && Left(p) == 0
    ensures p == Failed && NothingInstalled(before, w, t)
  {
    hide NothingInstalled;
  }

  /**
    Integration of a worktree at its base, left to itself: it ends integrated
    exactly when the worktree is ready, and else refused with nothing installed.
    If what it looks at before the commit does not pass, nothing at all has
    changed; a worktree that passes without being ready is one whose files hold
    a new path that is authorized but not approved, or whose diff is empty.
   */
  lemma IntegratesIffReady(w: World, t: Ticket, i: nat, n: nat)
    requires Known(w, t) && w.worktrees[t].head == w.candidates[t].base && n >= 14
    ensures var done := Integrating(w, t, i, n);
      && (ProcOf(done, i) == Integrated(t, |w.store|) <==> Ready(w, t))
      && (!Ready(w, t) ==> ProcOf(done, i) == Failed && NothingInstalled(w, done, t))
      && (!Passes(w, t) ==> done == w.(procs := done.procs))
    ensures Ready(w, t) <==> Passes(w, t) && !NotTheCandidate(w, t)
  {
    if Ready(w, t) {
      ReadyPasses(w, t);
    }
    if !Passes(w, t) {
      FailingWorktreeIsRefused(w, t, i, n);
    } else {
      PassingIsReadyUnlessNotTheCandidate(w, t);
      if Ready(w, t) {
        ReadyIntegrates(w, t, i, n);
      } else {
        NotTheCandidateFails(w, t, i, n);
      }
    }
    hide Ready, Passes, NotTheCandidate, Alone, Happen;
  }

  lemma ReadyPasses(w: World, t: Ticket)
    requires Known(w, t) && w.worktrees[t].head == w.candidates[t].base && Ready(w, t)
    ensures Passes(w, t)
  {
    hide DiffOf, Restrict, Ancestor;
    ChangesShow(w, t);
  }

  // ----- A worktree whose HEAD has left the base -----

  /** Where a lone integration can be that looks for the commit of an earlier one. */
  ghost predicate LookingBack(w: World, t: Ticket, p: Proc)
    requires Known(w, t)
  {
    var c, head := w.candidates[t], w.worktrees[t].head;
    var recovers := Ancestor(w.store, c.startingSha, c.base) && t in w.intents;
    var verified := recovers && Exact(w.store, c, head) && StatusPaths(w, t) == {};
    match p
    case Started(u) => u == t
    case HeadSeen(u, live) => u == t && live == head
    case Recovering(u, live) => u == t && live == head && recovers
    case Verifying(u, sha) => u == t && sha == head && verified
    case ReadingHead(u, sha) => u == t && sha == head && verified && c.tranche.Some?
    case Failed => true
    case _ => false
  }

  lemma LookBackRefuses(w: World, t: Ticket, p: Proc)
    requires Known(w, t) && w.worktrees[t].head != w.candidates[t].base && !Committed(w, t, w.worktrees[t].head) && LookingBack(w, t, p)
    ensures Command(w, p).0 == w && LookingBack(w, t, Command(w, p).1)
    ensures Command(w, p).1 == Failed || (Left(Command(w, p).1) < Left(p) && p != Failed)
  {
    hide DiffOf, Restrict, Ancestor, StatusPaths, Exact, CommitIn, MoveHead;
  }

  lemma LookingBackAside(w: World, procs: map<nat, Proc>, t: Ticket, p: Proc)
    requires Known(w, t)
    ensures var w' := w.(procs := procs);
      Known(w', t) && (LookingBack(w', t, p) <==> LookingBack(w, t, p))
      && (Committed(w', t, w.worktrees[t].head) <==> Committed(w, t, w.worktrees[t].head))
  {
    assert StatusPaths(w.(procs := procs), t) == StatusPaths(w, t);
    hide DiffOf, Restrict, Ancestor, StatusPaths, Exact;
  }

  lemma {:induction false} LooksBackRefuse(w: World, t: Ticket, i: nat, n: nat)
    requires Known(w, t) && w.worktrees[t].head != w.candidates[t].base && !Committed(w, t, w.worktrees[t].head)
    requires LookingBack(w, t, ProcOf(w, i))
    ensures var later := Alone(w, i, n);
      && later == w.(procs := later.procs) && LookingBack(w, t, ProcOf(later, i))
      && (ProcOf(later, i) == Failed || Left(ProcOf(later, i)) <= Left(ProcOf(w, i)) - n)
    decreases n
  {
    hide Command, Committed, LookingBack, Left;
    if n > 0 {
      LooksBackRefuse(w, t, i, n - 1);
      var before := Alone(w, i, n - 1);
      var p := ProcOf(before, i);
      LookingBackAside(w, before.procs, t, p);
      LookBackRefuses(before, t, p);
      LookingBackAside(w, before.procs, t, Command(before, p).1);
      assert Alone(w, i, n) == Command(before, p).0.(procs := before.procs[i := Command(before, p).1]);
    }
  }

  /**
    Once HEAD has left the base, integration left to itself returns HEAD exactly
    when it is the accepted commit in a clean worktree, under an intent, with the
    tranche head at the base or already there; else it changes nothing.
   */
  lemma ReplaysIffCommitted(w: World, t: Ticket, i: nat, n: nat)
    requires Known(w, t) && w.worktrees[t].head != w.candidates[t].base && n >= 15
    ensures var done, head := Integrating(w, t, i, n), w.worktrees[t].head;
      && (ProcOf(done, i) == Integrated(t, head) <==> Committed(w, t, head))
      && (Committed(w, t, head) ==> Installed(done, t, head) && done.worktrees == w.worktrees && done.store == w.store)
      && (!Committed(w, t, head) ==> ProcOf(done, i) == Failed && done == w.(procs := done.procs))
  {
    var begun := Happen(w, Begin(i, IntegrateCandidate(t)));
    var head := w.worktrees[t].head;
    if Committed(w, t, head) {
      CommittedReplays(w, t, head, i, n);
    } else {
      LookingBackAside(w, begun.procs, t, Started(t));
      LooksBackRefuse(begun, t, i, n);
    }
  }

  lemma OffTheBaseIsCommitted(w: World, t: Ticket, sha: Sha, p: Proc)
    requires OnTheWay(w, t, sha, p) && Known(w, t) && w.worktrees[t].head != w.candidates[t].base
    ensures Committed(w, t, sha)
  {
    hide Committed, Exact, StatusPaths, Ancestor;
  }

  lemma CommittedLeavesWorktrees(w: World, t: Ticket, sha: Sha, p: Proc)
    requires OnTheWay(w, t, sha, p) && Committed(w, t, sha)
    ensures SameWorktrees(w, Command(w, p).0)
  {
    if p.Integrated? {
      Rests(w, t, sha, p);
    } else {
      CommittedIsPast(w, t, sha, p);
      OthersLeaveWorktrees(w, p);
    }
    hide Command, OnTheWay, Committed;
  }

  lemma {:induction false} CommittedStays(w: World, t: Ticket, sha: Sha, i: nat, n: nat)
    requires OnTheWay(w, t, sha, ProcOf(w, i)) && Committed(w, t, sha)
    ensures var later := Alone(w, i, n);
      later.worktrees == w.worktrees && later.store == w.store && Committed(later, t, sha) && OnTheWay(later, t, sha, ProcOf(later, i))
      && later.candidates == w.candidates && later.lineage == w.lineage && later.created == w.created
    decreases n
  {
    hide OnTheWay, Command, StatusPaths, Exact, Ancestor, ExistingBase;
    if n > 0 {
      CommittedStays(w, t, sha, i, n - 1);
      var before := Alone(w, i, n - 1);
      CommittedLeavesWorktrees(before, t, sha, ProcOf(before, i));
      AloneStays(w, t, sha, i, n);
      OffTheBaseIsCommitted(Alone(w, i, n), t, sha, ProcOf(Alone(w, i, n), i));
    }
  }

  lemma CommittedReplays(w: World, t: Ticket, sha: Sha, i: nat, n: nat)
    requires Committed(w, t, sha) && n >= 14
    ensures var done := Integrating(w, t, i, n);
      ProcOf(done, i) == Integrated(t, sha) && Installed(done, t, sha) && done.worktrees == w.worktrees && done.store == w.store
  {
    hide Command, Alone, Installed, ExistingBase, StatusPaths, Exact, Ancestor;
    var begun := Happen(w, Begin(i, IntegrateCandidate(t)));
    ProcsAside(w, begun.procs, t, sha, Started(t));
    OffTheBaseIsCommitted(begun, t, sha, Started(t));
    StartedStays(w, t, sha, i, n);
    CommittedStays(begun, t, sha, i, n);
    ProcsAside(Integrating(w, t, i, n), Integrating(w, t, i, n).procs, t, sha, ProcOf(Integrating(w, t, i, n), i));
  }

  // ----- A commit that is refused afterwards -----

  /** Such a worktree on its way to a commit that no later look accepts. */
  ghost predicate BoundToCommit(before: World, w: World, t: Ticket, p: Proc)
    requires Known(before, t)
  {
    && Doomed(before, w, t, p)
    && (p.Started? || p.HeadSeen? || p.Inspecting? || p.Fingerprinting? || p.HeadCheck? || p.Intending? ==>
          Passes(w, t) && w.worktrees[t].files != HeadTree(w, t) && w.created[t] == before.created[t])
    && (p.Staging? || p.Quiet? || p.Committing? ==> w.worktrees[t].files != HeadTree(w, t) && w.created[t] == before.created[t])
    && (p.NamingHead? || p.Verifying? || p.Failed? ==>
          w.created[t] == before.created[t] + 1 && w.worktrees[t].head != w.candidates[t].base && HeadTree(w, t) == w.worktrees[t].files)
  }

  lemma BoundEarly(before: World, w: World, t: Ticket, p: Proc)
    requires Known(before, t) && BoundToCommit(before, w, t, p)
    requires p.Started? || p.HeadSeen? || p.Inspecting? || p.Fingerprinting? || p.HeadCheck?
    ensures Command(w, p).0 == w && BoundToCommit(before, w, t, Command(w, p).1)
  {
    hide Command, Passes, HeadTree;
    PassingGoesOn(w, t, p);
  }

  /** Each look at a worktree that passes leads to the next. */
  lemma PassingGoesOn(w: World, t: Ticket, p: Proc)
    requires Known(w, t) && w.worktrees[t].head == w.candidates[t].base && Passes(w, t)
    requires p == Started(t) || p == HeadSeen(t, w.candidates[t].base) || p == Inspecting(t) || p == Fingerprinting(t) || p == HeadCheck(t)
    ensures Command(w, p) == (w, match p
      case Started(_) => HeadSeen(t, w.candidates[t].base)
      case HeadSeen(_, _) => Inspecting(t)
      case Inspecting(_) => Fingerprinting(t)
      case Fingerprinting(_) => HeadCheck(t)
      case _ => Intending(t))
  {
    hide DiffOf, Restrict, Ancestor, StatusPaths, ExistingBase, Exact, CommitIn, MoveHead, HeadTree, CasMatches, Return;
  }

  lemma BoundIntends(before: World, w: World, t: Ticket, p: Proc)
    requires Known(before, t) && BoundToCommit(before, w, t, p) && p.Intending?
    ensures BoundToCommit(before, Command(w, p).0, t, Command(w, p).1)
  {
    hide DiffOf, Restrict, Ancestor, StatusPaths, ExistingBase, Exact, MoveHead, CasMatches, Return, CommitIn;
  }

  lemma BoundStages(before: World, w: World, t: Ticket, p: Proc)
    requires Known(before, t) && BoundToCommit(before, w, t, p) && (p.Staging? || p.Quiet?)
    ensures BoundToCommit(before, Command(w, p).0, t, Command(w, p).1)
  {
    hide DiffOf, Restrict, Ancestor, StatusPaths, ExistingBase, Exact, MoveHead, CasMatches, Return, CommitIn;
  }

  lemma BoundCommitted(before: World, w: World, t: Ticket, p: Proc)
    requires Known(before, t) && BoundToCommit(before, w, t, p) && p.Committing?
    ensures BoundToCommit(before, Command(w, p).0, t, Command(w, p).1)
  {
    hide DiffOf, Restrict, Ancestor, StatusPaths, ExistingBase, Exact, MoveHead, CasMatches, Return;
  }

  lemma BoundNames(before: World, w: World, t: Ticket, p: Proc)
    requires Known(before, t) && BoundToCommit(before, w, t, p) && p.NamingHead?
    ensures BoundToCommit(before, Command(w, p).0, t, Command(w, p).1)
  {
    hide DiffOf, Restrict, Ancestor, StatusPaths, ExistingBase, Exact, MoveHead, CasMatches;
  }

  lemma BoundAside(before: World, w: World, procs: map<nat, Proc>, t: Ticket, p: Proc)
    requires Known(before, t) && BoundToCommit(before, w, t, p)
    ensures BoundToCommit(before, w.(procs := procs), t, p)
  {
    hide Passes, Looking, StatusPaths, DiffOf;
    PlacesAside(w, procs, t, p);
  }

  lemma {:induction false} BoundCommits(before: World, w: World, t: Ticket, i: nat, n: nat)
    requires Known(before, t) && BoundToCommit(before, w, t, ProcOf(w, i)) && NotTheCandidate(before, t)
    ensures BoundToCommit(before, Alone(w, i, n), t, ProcOf(Alone(w, i, n), i))
    decreases n
  {
    hide Command, Known, NotTheCandidate, Passes, HeadTree;
    if n > 0 {
      BoundCommits(before, w, t, i, n - 1);
      var v := Alone(w, i, n - 1);
      var p := ProcOf(v, i);
      BoundStep(before, v, t, p);
      var (v', p') := Command(v, p);
      BoundAside(before, v', v'.procs[i := p'], t, p');
    }
  }

  lemma CommandLeavesPlaces(w: World, p: Proc)
    ensures Command(w, p).0.procs == w.procs
  {
    if p.Staging? || p.Committing? {
      hide DiffOf, Ancestor;
    } else {
      OthersLeaveWorktrees(w, p);
      hide Command;
    }
  }

  lemma BoundStep(before: World, w: World, t: Ticket, p: Proc)
    requires Known(before, t) && BoundToCommit(before, w, t, p) && NotTheCandidate(before, t)
    ensures BoundToCommit(before, Command(w, p).0, t, Command(w, p).1) && Command(w, p).0.procs == w.procs
  {
    if p.Verifying? {
      DoomedIsFoundOut(before, w, t, p);
    } else if p.Failed? {
    } else if p.Started? || p.HeadSeen? || p.Inspecting? || p.Fingerprinting? || p.HeadCheck? {
      BoundEarly(before, w, t, p);
    } else if p.Intending? {
      BoundIntends(before, w, t, p);
    } else if p.Staging? || p.Quiet? {
      BoundStages(before, w, t, p);
    } else if p.Committing? {
      BoundCommitted(before, w, t, p);
    } else {
      BoundNames(before, w, t, p);
    }
    CommandLeavesPlaces(w, p);
    hide Command;
  }

  lemma RefusedCommitStays(before: World, w: World, t: Ticket)
    requires Known(before, t) && NotTheCandidate(before, t) && NothingInstalled(before, w, t) && HeadTree(w, t) == w.worktrees[t].files
    ensures !Committed(w, t, w.worktrees[t].head)
  {
    hide Ancestor, StatusPaths, ExistingBase;
  }

  /**
    The checks before the commit leave out new files that were not approved, and
    the commit does not. So a worktree that passes and holds such a file is
    committed once and then refused: by this run, and by every later one.
   */
  lemma CommittedAndRefused(w: World, t: Ticket, i: nat, n: nat, j: nat, m: nat)
    requires Known(w, t) && w.worktrees[t].head == w.candidates[t].base && Passes(w, t) && NotTheCandidate(w, t)
    requires w.worktrees[t].files != HeadTree(w, t) && n >= 14 && m >= 15
    ensures var done := Integrating(w, t, i, n);
      && t in done.created && done.created[t] == w.created[t] + 1 && ProcOf(done, i) == Failed
      && ProcOf(Integrating(done, t, j, m), j) == Failed && NothingInstalled(w, done, t)
  {
    var begun := Happen(w, Begin(i, IntegrateCandidate(t)));
    PlacesAside(w, begun.procs, t, Started(t));
    assert BoundToCommit(w, begun, t, Started(t));
    BoundCommits(w, begun, t, i, n);
    NotTheCandidateFails(w, t, i, n);
    var done := Integrating(w, t, i, n);
    RefusedCommitStays(w, done, t);
    ReplaysIffCommitted(done, t, j, m);
    hide Alone, Passes, NotTheCandidate, Committed;
  }

  // ----- The other operations, left to themselves -----

  /** Everything integrate_accepted_candidate_only asks of the commit named and of the head. */
  ghost predicate MayForward(w: World, t: Ticket, accepted: Sha) {
    && Known(w, t) && w.candidates[t].tranche.Some? && accepted < |w.store|
    && w.candidates[t].tranche.value in w.heads
    && var c := w.candidates[t];
      var diff, current := DiffOf(w.store[c.base].tree, w.store[accepted].tree), w.heads[c.tranche.value];
      && LinearFrom(w.store, c.base, accepted)
      && diff.Keys != {} && diff.Keys <= c.authorized && diff == c.fingerprint
      && (current == accepted || current == c.base)
  }

  /** One controller starts an operation and does three commands. */
  ghost function ThreeCommands(w: World, i: nat, op: Operation): World {
    Happen(Happen(Happen(Happen(w, Begin(i, op)), Continue(i)), Continue(i)), Continue(i))
  }

  /**
    The fast-forward path moves the head from the base to the accepted commit, or
    finds it there already, exactly when the commit is linear over the base, holds
    the accepted diff within the authorized paths, and the head is at one of the
    two; else it fails, and either way nothing else changes.
   */
  lemma ForwardsIffAccepted(w: World, t: Ticket, accepted: Sha, i: nat)
    ensures var done := ThreeCommands(w, i, ForwardCandidate(t, accepted));
      && (ProcOf(done, i) == Forwarded(t, accepted) <==> MayForward(w, t, accepted))
      && (!MayForward(w, t, accepted) ==> ProcOf(done, i) == Failed && done == w.(procs := done.procs))
      && (MayForward(w, t, accepted) ==>
            var r := w.candidates[t].tranche.value;
            && done.heads == w.heads[r := accepted] && done.store == w.store && done.worktrees == w.worktrees
            && done.candidates == w.candidates && done.intents == w.intents && done.created == w.created)
  {
    var w0 := Happen(w, Begin(i, ForwardCandidate(t, accepted)));
    PlacesOnly(w, w0.procs, t, accepted);
    ForwardReads(w0, i, t, accepted);
    var w1 := Happen(w0, Continue(i));
    PlacesOnly(w, w1.procs, t, accepted);
    if ProcOf(w1, i).ForwardChecking? {
      ForwardChecks(w1, i, t, accepted);
    } else {
      RestsWhereItIs(w1, i);
    }
    var w2 := Happen(w1, Continue(i));
    PlacesOnly(w, w2.procs, t, accepted);
    if ProcOf(w2, i).ForwardAdvancing? {
      ForwardMoves(w2, i, t, accepted);
    } else {
      RestsWhereItIs(w2, i);
    }
    hide Happen, MayForward, Known;
  }

  lemma PlacesOnly(w: World, procs: map<nat, Proc>, t: Ticket, accepted: Sha)
    ensures var v := w.(procs := procs);
      (MayForward(v, t, accepted) <==> MayForward(w, t, accepted)) && (Known(v, t) <==> Known(w, t))
  {
    hide DiffOf, LinearFrom;
  }

  /** A controller that has failed, resolved its base, or forwarded a ticket there is, does nothing more. */
  lemma RestsWhereItIs(w: World, i: nat)
    requires i in w.procs && (w.procs[i].Failed? || w.procs[i].Resolved? || (w.procs[i].Forwarded? && Known(w, w.procs[i].ticket)))
    ensures Happen(w, Continue(i)) == w
  {
    hide Forward, Known;
    assert w.procs[i := w.procs[i]] == w.procs;
  }

  lemma ForwardReads(w: World, i: nat, t: Ticket, accepted: Sha)
    requires i in w.procs && w.procs[i] == ForwardReading(t, accepted)
    ensures var w' := Happen(w, Continue(i));
      && w' == w.(procs := w.procs[i := w'.procs[i]])
      && (w'.procs[i] == Failed || w'.procs[i].ForwardChecking?)
      && (MayForward(w, t, accepted) ==> w'.procs[i].ForwardChecking?)
      && (w'.procs[i].ForwardChecking? ==>
            && Known(w, t) && w.candidates[t].tranche.Some? && accepted < |w.store| && w.candidates[t].tranche.value in w.heads
            && w'.procs[i] == ForwardChecking(t, accepted, w.heads[w.candidates[t].tranche.value]))
  {
    hide DiffOf, LinearFrom, Integrate, ResolveBase;
  }

  lemma ForwardChecks(w: World, i: nat, t: Ticket, accepted: Sha)
    requires Known(w, t) && w.candidates[t].tranche.Some? && accepted < |w.store| && w.candidates[t].tranche.value in w.heads
    requires i in w.procs && w.procs[i] == ForwardChecking(t, accepted, w.heads[w.candidates[t].tranche.value])
    ensures var w' := Happen(w, Continue(i));
      && w' == w.(procs := w.procs[i := w'.procs[i]])
      && w'.procs[i] == if !MayForward(w, t, accepted) then Failed
                        else if w.heads[w.candidates[t].tranche.value] == accepted then Forwarded(t, accepted)
                        else ForwardAdvancing(t, accepted)
  {
    hide DiffOf, LinearFrom, Integrate, ResolveBase;
  }

  lemma ForwardMoves(w: World, i: nat, t: Ticket, accepted: Sha)
    requires MayForward(w, t, accepted) && w.heads[w.candidates[t].tranche.value] != accepted
    requires i in w.procs && w.procs[i] == ForwardAdvancing(t, accepted)
    ensures var w' := Happen(w, Continue(i));
      && w'.procs == w.procs[i := Forwarded(t, accepted)]
      && w'.heads == w.heads[w.candidates[t].tranche.value := accepted] && w'.store == w.store && w'.worktrees == w.worktrees
      && w'.candidates == w.candidates && w'.intents == w.intents && w'.created == w.created
  {
    hide DiffOf, LinearFrom, Integrate, ResolveBase;
  }

  /** Resolving an execution base gives the head there is, and makes it of the planning base where there is none. */
  lemma ResolvesTheHead(w: World, r: TrancheId, planning: Sha, i: nat)
    ensures var done := ThreeCommands(w, i, Resolve(r, planning));
      if planning >= |w.store| then ProcOf(done, i) == Failed && done == w.(procs := done.procs)
      else if r in w.heads then ProcOf(done, i) == Resolved(w.heads[r]) && done == w.(procs := done.procs)
      else ProcOf(done, i) == Resolved(planning) && done == MoveHead(w, r, planning, Anchoring).(procs := done.procs)
  {
    var w0 := Happen(w, Begin(i, Resolve(r, planning)));
    var w1, w2 := Happen(w0, Continue(i)), Happen(Happen(w0, Continue(i)), Continue(i));
    if planning >= |w.store| {
      RestsWhereItIs(w0, i);
    } else if r in w.heads {
      ResolvingReads(w0, i, r, planning);
      RestsWhereItIs(w1, i);
    } else {
      ResolvingReads(w0, i, r, planning);
      ResolvingCreates(w1, i, r, planning);
      RestsWhereItIs(w2, i);
    }
    hide Happen, MoveHead;
  }

  lemma ResolvingReads(w: World, i: nat, r: TrancheId, planning: Sha)
    requires i in w.procs && w.procs[i] == Resolving(r, planning)
    ensures Happen(w, Continue(i)) == w.(procs := w.procs[i := if r in w.heads then Resolved(w.heads[r]) else Creating(r, planning)])
  {
    hide Integrate, Forward, Known;
  }

  lemma ResolvingCreates(w: World, i: nat, r: TrancheId, planning: Sha)
    requires i in w.procs && w.procs[i] == Creating(r, planning) && r !in w.heads
    ensures Happen(w, Continue(i)) == MoveHead(w, r, planning, Anchoring).(procs := w.procs[i := Resolved(planning)])
  {
    hide Integrate, Forward, Known;
  }

  /** A controller that is overtaken between looking for the head and creating it takes the head the other one made. */
  lemma OvertakenTakesTheHead(w: World, i: nat, r: TrancheId, planning: Sha)
    requires i in w.procs && w.procs[i] == Creating(r, planning) && r in w.heads
    ensures Happen(Happen(w, Continue(i)), Continue(i)) == w.(procs := w.procs[i := Resolved(w.heads[r])])
  {
    hide Integrate, Forward, Known;
    var w1 := Happen(w, Continue(i));
    assert w1 == w.(procs := w.procs[i := Rereading(r)]);
    assert w1.procs[i := Resolved(w.heads[r])] == w.procs[i := Resolved(w.heads[r])];
  }

  /** What may have changed under a running integration since it looked, and is looked at again before it goes on. */
  ghost predicate Overtaken(w: World, p: Proc)
    requires !Resolves(p) && Known(w, p.ticket)
  {
    var c := w.candidates[p.ticket];
    match p
    case HeadCheck(_) => ExistingBase(w, c) != Some(c.base)
    case Intending(t) => t in w.intents && w.intents[t] != Intent(c, false)
    case Quiet(t, _) => w.worktrees[t].index == HeadTree(w, t)
    case Committing(t, _) => w.worktrees[t].index == HeadTree(w, t)
    case Recovering(t, _) => StatusPaths(w, t) != {} || !Exact(w.store, c, w.worktrees[t].head)
    case Verifying(t, sha) => StatusPaths(w, t) != {} || !Exact(w.store, c, sha)
    case ReadingHead(_, sha) => ExistingBase(w, c) != Some(c.base) && ExistingBase(w, c) != Some(sha)
    case Advancing(_, _) => !CasMatches(w, c)
    case Confirming(_, sha) => ExistingBase(w, c) != Some(sha)
    case _ => false
  }

  /** Whatever others did between two commands: integration stops where it finds it, and changes nothing. */
  lemma OvertakenIntegrationIsRefused(w: World, i: nat)
    requires i in w.procs && !Resolves(w.procs[i]) && !Forwards(w.procs[i])
    requires Known(w, w.procs[i].ticket) && Overtaken(w, w.procs[i])
    ensures Happen(w, Continue(i)) == w.(procs := w.procs[i := Failed])
  {
    hide Forward, ResolveBase, StatusPaths, DiffOf, Exact, ExistingBase, CasMatches, HeadTree;
  }

  /** The direct path up to its commit: it stages whatever is there, and stops only if that is what HEAD has. */
  lemma DirectCommits(w: World, t: Ticket, i: nat)
    requires Known(w, t)
    ensures var staged := w.(worktrees := w.worktrees[t := w.worktrees[t].(index := w.worktrees[t].files)]);
      var done := Happen(ThreeCommands(w, i, ExecuteDirectly(t)), Continue(i));
      if w.worktrees[t].files == HeadTree(w, t) then ProcOf(done, i) == Failed && done == staged.(procs := done.procs)
      else
        && ProcOf(done, i) == DirectAdvance(t, |w.store|)
        && done == CommitIn(staged, t, [], w.worktrees[t].files, w.candidates[t].message).(
             created := w.created[t := w.created[t] + 1], procs := done.procs)
  {
    hide Happen, StatusPaths;
    DirectStages(w, t, i);
    DirectAfterStaging(Happen(Happen(w, Begin(i, ExecuteDirectly(t))), Continue(i)), t, i);
  }

  lemma DirectStages(w: World, t: Ticket, i: nat)
    requires Known(w, t)
    ensures var staged := Happen(Happen(w, Begin(i, ExecuteDirectly(t))), Continue(i));
      && i in staged.procs && staged.procs[i] == Quiet(t, Direct)
      && staged == w.(worktrees := w.worktrees[t := w.worktrees[t].(index := w.worktrees[t].files)], procs := staged.procs)
  {
    hide Forward, ResolveBase, StatusPaths, DiffOf;
  }

  lemma DirectAfterStaging(w: World, t: Ticket, i: nat)
    requires Known(w, t) && i in w.procs && w.procs[i] == Quiet(t, Direct) && w.worktrees[t].index == w.worktrees[t].files
    ensures var done := Happen(Happen(Happen(w, Continue(i)), Continue(i)), Continue(i));
      if w.worktrees[t].files == HeadTree(w, t) then ProcOf(done, i) == Failed && done == w.(procs := done.procs)
      else
        && ProcOf(done, i) == DirectAdvance(t, |w.store|)
        && done == CommitIn(w, t, [], w.worktrees[t].files, w.candidates[t].message).(created := w.created[t := w.created[t] + 1], procs := done.procs)
  {
    hide Happen, StatusPaths;
    DirectLooks(w, t, i);
    var w1 := Happen(w, Continue(i));
    if w.worktrees[t].files == HeadTree(w, t) {
      RestsWhereItIs(w1, i);
    } else {
      DirectCommit(w1, t, i);
    }
  }

  lemma DirectLooks(w: World, t: Ticket, i: nat)
    requires Known(w, t) && i in w.procs && w.procs[i] == Quiet(t, Direct)
    ensures Happen(w, Continue(i)) == w.(procs := w.procs[i := if w.worktrees[t].index == HeadTree(w, t) then Failed else Committing(t, Direct)])
  {
    hide Forward, ResolveBase, StatusPaths, DiffOf, HeadTree;
  }

  lemma DirectCommit(w: World, t: Ticket, i: nat)
    requires Known(w, t) && i in w.procs && w.procs[i] == Committing(t, Direct) && w.worktrees[t].index == w.worktrees[t].files != HeadTree(w, t)
    ensures var done := Happen(Happen(w, Continue(i)), Continue(i));
      && ProcOf(done, i) == DirectAdvance(t, |w.store|)
      && done == CommitIn(w, t, [], w.worktrees[t].files, w.candidates[t].message).(created := w.created[t := w.created[t] + 1], procs := done.procs)
  {
    hide Forward, ResolveBase, StatusPaths, DiffOf;
    var w1 := Happen(w, Continue(i));
    assert w1 == CommitIn(w, t, [], w.worktrees[t].files, w.candidates[t].message).(
      created := w.created[t := w.created[t] + 1], procs := w.procs[i := NamingHead(t, Direct)]);
    assert Known(w1, t) && w1.worktrees[t].head == |w.store|;
  }

  /** And its advance: the head moves to the commit if it is at the base, and if there is no tranche nothing is to be moved. */
  lemma DirectAdvances(w: World, t: Ticket, sha: Sha, i: nat)
    requires Known(w, t) && i in w.procs && w.procs[i] == DirectAdvance(t, sha)
    ensures var done, c := Happen(w, Continue(i)), w.candidates[t];
      if c.tranche == None then done == w.(procs := w.procs[i := Idle])
      else if CasMatches(w, c) then
        ProcOf(done, i) == Idle && done.heads == w.heads[c.tranche.value := sha] && done.store == w.store && done.worktrees == w.worktrees
      else done == w.(procs := w.procs[i := Failed])
  {
    hide Forward, ResolveBase, StatusPaths, DiffOf, Exact;
  }
}
