/**
  How often integration commits, and where a replay ends. While nobody else
  touches a worktree, the controllers make at most one commit in it. A run that
  dies at any point and is started again ends with that one commit as the
  tranche head.
 */
module IntegrationReplay {
  import opened Options
  import opened CommitGraph
  import opened IntegrationHead

  // ----- At most one commit -----

  /** Nothing left to commit once the one commit has been made. */
  predicate CleanTicket(store: Store, wt: Worktree, made: nat) {
    && made <= 1
    && (made == 1 ==> wt.head < |store| && wt.index == wt.files == store[wt.head].tree)
  }

  predicate CleanTickets(store: Store, cs: set<Ticket>, wts: map<Ticket, Worktree>, created: map<Ticket, nat>, touched: set<Ticket>) {
    && cs == wts.Keys == created.Keys
    && forall t :: t in cs && t !in touched ==> CleanTicket(store, wts[t], created[t])
  }

  /** A controller that has staged an untouched worktree has staged all of it. */
  predicate StagedAll(wts: map<Ticket, Worktree>, touched: set<Ticket>, p: Proc) {
    p.Quiet? || p.Committing? ==>
      p.ticket in wts && (p.ticket !in touched ==> wts[p.ticket].index == wts[p.ticket].files)
  }

  predicate AllStaged(wts: map<Ticket, Worktree>, touched: set<Ticket>, procs: map<nat, Proc>) {
    forall i :: i in procs ==> StagedAll(wts, touched, procs[i])
  }

  ghost predicate Clean(w: World) {
    && CleanTickets(w.store, w.candidates.Keys, w.worktrees, w.created, w.touched)
    && AllStaged(w.worktrees, w.touched, w.procs)
  }

  ghost predicate CommandKeepsClean(w: World, r: (World, Proc)) {
    Clean(r.0) && r.0.procs == w.procs && StagedAll(r.0.worktrees, r.0.touched, r.1)
  }

  ghost predicate SameWorktrees(w: World, w': World) {
    && w'.store == w.store && w'.candidates == w.candidates && w'.worktrees == w.worktrees
    && w'.lineage == w.lineage && w'.created == w.created && w'.touched == w.touched && w'.procs == w.procs
  }

  predicate Moves(p: Proc) {
    p.Intending? || p.Verifying? || p.Advancing? || p.Confirming? || p.DirectAdvance?
  }

  lemma ReadsLeaveEverything(w: World, p: Proc)
    requires !Resolves(p) && Known(w, p.ticket) && !p.Staging? && !p.Committing? && !Moves(p)
    ensures Integrate(w, p).0 == w
  {
    hide DiffOf, Restrict, Ancestor, Exact, StatusPaths, HeadTree, ExistingBase, CasMatches, CommitIn, MoveHead, Return;
  }

  lemma ReturnLeavesWorktrees(w: World, t: Ticket, sha: Sha)
    ensures SameWorktrees(w, Return(w, t, sha).0)
  {
  }

  lemma HeadLeavesWorktrees(w: World, r: TrancheId, to: Sha, cause: Cause)
    ensures SameWorktrees(w, MoveHead(w, r, to, cause))
  {
  }

  lemma ReturningLeavesWorktrees(w: World, p: Proc)
    requires (p.Verifying? || p.Confirming?) && Known(w, p.ticket)
    ensures SameWorktrees(w, Integrate(w, p).0)
  {
    hide Ancestor, Exact, StatusPaths, HeadTree, ExistingBase, CommitIn, MoveHead, Return, Known;
    ReturnLeavesWorktrees(w, p.ticket, p.commit);
  }

  lemma AdvancingLeavesWorktrees(w: World, p: Proc)
    requires (p.Advancing? || p.DirectAdvance?) && Known(w, p.ticket)
    ensures SameWorktrees(w, Integrate(w, p).0)
  {
    hide Ancestor, Exact, StatusPaths, HeadTree, ExistingBase, CommitIn, MoveHead, Return;
    var c := w.candidates[p.ticket];
    if c.tranche.Some? {
      HeadLeavesWorktrees(w, c.tranche.value, p.commit, if p.Advancing? then Integration(p.ticket) else DirectExecution);
    }
  }

  lemma MovesLeaveWorktrees(w: World, p: Proc)
    requires !Resolves(p) && Known(w, p.ticket) && Moves(p)
    ensures SameWorktrees(w, Integrate(w, p).0)
  {
    if p.Verifying? || p.Confirming? {
      ReturningLeavesWorktrees(w, p);
    } else if p.Advancing? || p.DirectAdvance? {
      AdvancingLeavesWorktrees(w, p);
    } else {
      hide DiffOf, Restrict, Ancestor, Exact, StatusPaths, HeadTree, ExistingBase, CommitIn, MoveHead, Return, CasMatches;
    }
  }

  lemma IntegrateLeavesWorktrees(w: World, p: Proc)
    requires !Resolves(p) && Known(w, p.ticket) && !p.Staging? && !p.Committing?
    ensures SameWorktrees(w, Integrate(w, p).0)
  {
    hide Integrate;
    if Moves(p) {
      MovesLeaveWorktrees(w, p);
    } else {
      ReadsLeaveEverything(w, p);
    }
  }

  lemma ForwardLeavesWorktrees(w: World, p: Proc)
    requires Forwards(p)
    ensures SameWorktrees(w, Forward(w, p).0)
  {
    hide DiffOf, LinearFrom, CasMatches;
  }

  lemma ResolvingLeavesWorktrees(w: World, p: Proc)
    requires Resolves(p)
    ensures SameWorktrees(w, ResolveBase(w, p).0)
  {
  }

  lemma OthersLeaveWorktrees(w: World, p: Proc)
    requires !p.Staging? && !p.Committing?
    ensures SameWorktrees(w, Command(w, p).0)
  {
    hide Integrate, Forward, ResolveBase, Known;
    if Forwards(p) {
      ForwardLeavesWorktrees(w, p);
    } else if Resolves(p) {
      ResolvingLeavesWorktrees(w, p);
    } else if Known(w, p.ticket) {
      IntegrateLeavesWorktrees(w, p);
    }
  }

  /** The controller has staged the worktree and not yet committed. */
  predicate AboutToCommit(p: Proc, t: Ticket) {
    (p.Quiet? || p.Committing?) && p.ticket == t
  }

  lemma RefsStageNothing(w: World, p: Proc, t: Ticket)
    requires Forwards(p) || Resolves(p)
    ensures !AboutToCommit(Command(w, p).1, t)
  {
    hide Integrate, DiffOf, LinearFrom, CasMatches, MoveHead;
  }

  lemma IntegrateStagesOnly(w: World, p: Proc, t: Ticket)
    requires !Resolves(p) && Known(w, p.ticket) && AboutToCommit(Integrate(w, p).1, t)
    ensures (p.Staging? || p.Quiet?) && p.ticket == t
  {
    hide DiffOf, Restrict, Ancestor, Exact, StatusPaths, HeadTree, ExistingBase, CommitIn, CasMatches, MoveHead, Known;
  }

  /** Only staging leads to between staging and commit. */
  lemma OnlyStagingStages(w: World, p: Proc, t: Ticket)
    requires AboutToCommit(Command(w, p).1, t)
    ensures (p.Staging? || p.Quiet?) && p.ticket == t
  {
    hide Integrate, Forward, ResolveBase, Known;
    if Forwards(p) || Resolves(p) {
      RefsStageNothing(w, p, t);
    } else if Known(w, p.ticket) {
      IntegrateStagesOnly(w, p, t);
    }
  }

  lemma OthersStageNothing(w: World, p: Proc)
    requires !p.Staging? && !p.Committing? && StagedAll(w.worktrees, w.touched, p)
    ensures StagedAll(w.worktrees, w.touched, Command(w, p).1)
  {
    hide Command;
    var next := Command(w, p).1;
    if next.Quiet? || next.Committing? {
      OnlyStagingStages(w, p, next.ticket);
    }
  }

  lemma StageAll(w: World, p: Proc)
    requires Clean(w) && p.Staging?
    ensures CommandKeepsClean(w, Command(w, p))
  {
    if Known(w, p.ticket) {
      var w' := Command(w, p).0;
      forall i | i in w'.procs ensures StagedAll(w'.worktrees, w'.touched, w'.procs[i]) {
        assert StagedAll(w.worktrees, w.touched, w.procs[i]);
      }
    }
  }

  lemma CommitOnce(w: World, p: Proc)
    requires Clean(w) && p.Committing? && StagedAll(w.worktrees, w.touched, p)
    ensures CommandKeepsClean(w, Command(w, p))
  {
    var t := p.ticket;
    if Known(w, t) && w.worktrees[t].index != HeadTree(w, t) {
      var w' := Command(w, p).0;
      forall u | u in w'.candidates && u !in w'.touched ensures CleanTicket(w'.store, w'.worktrees[u], w'.created[u]) {
        assert CleanTicket(w.store, w.worktrees[u], w.created[u]);
      }
      forall i | i in w'.procs ensures StagedAll(w'.worktrees, w'.touched, w'.procs[i]) {
        assert StagedAll(w.worktrees, w.touched, w.procs[i]);
      }
    }
  }

  lemma CommandStaysClean(w: World, p: Proc)
    requires Clean(w) && StagedAll(w.worktrees, w.touched, p)
    ensures CommandKeepsClean(w, Command(w, p))
  {
    if p.Staging? {
      StageAll(w, p);
    } else if p.Committing? {
      CommitOnce(w, p);
    } else {
      OthersLeaveWorktrees(w, p);
      OthersStageNothing(w, p);
      hide Command;
    }
  }

  lemma TouchStaysClean(w: World, e: Event)
    requires Clean(w) && (e.Edit? || e.CommitByOthers?)
    ensures Clean(Happen(w, e))
  {
    var w' := Happen(w, e);
    forall u | u in w'.candidates && u !in w'.touched ensures CleanTicket(w'.store, w'.worktrees[u], w'.created[u]) {
      assert CleanTicket(w.store, w.worktrees[u], w.created[u]);
    }
    forall i | i in w'.procs ensures StagedAll(w'.worktrees, w'.touched, w'.procs[i]) {
      assert StagedAll(w.worktrees, w.touched, w.procs[i]);
    }
  }

  lemma StoreGrowsStaysClean(w: World, commit: Commit)
    requires Clean(w)
    ensures Clean(w.(store := w.store + [commit]))
  {
    var w' := w.(store := w.store + [commit]);
    forall u | u in w'.candidates && u !in w'.touched ensures CleanTicket(w'.store, w'.worktrees[u], w'.created[u]) {
      assert CleanTicket(w.store, w.worktrees[u], w.created[u]);
    }
  }

  lemma AdmitStaysClean(w: World, t: Ticket, c: Candidate, files: Tree)
    requires Clean(w) && t !in w.candidates && c.base < |w.store|
    ensures var wt := Worktree(c.base, w.store[c.base].tree, files);
      && CleanTickets(w.store, w.candidates.Keys + {t}, w.worktrees[t := wt], w.created[t := 0], w.touched)
      && AllStaged(w.worktrees[t := wt], w.touched, w.procs)
  {
    var wt := Worktree(c.base, w.store[c.base].tree, files);
    forall i | i in w.procs ensures StagedAll(w.worktrees[t := wt], w.touched, w.procs[i]) {
      assert StagedAll(w.worktrees, w.touched, w.procs[i]);
    }
  }

  lemma HappenStaysClean(w: World, e: Event)
    requires Clean(w)
    ensures Clean(Happen(w, e))
  {
    match e
    case Continue(i) => 
      hide CleanTickets, Command;
      CommandStaysClean(w, ProcOf(w, i));
    case Begin(i, op) =>
    case Crash(i) =>
    case Edit(_, _, _) => TouchStaysClean(w, e);
    case CommitByOthers(_, _, _, _) => TouchStaysClean(w, e);
    case CommitElsewhere(commit) => StoreGrowsStaysClean(w, commit);
    case Admit(t, c, files) =>
      hide CleanTickets, AllStaged;
      if t !in w.candidates && c.base < |w.store| {
        AdmitStaysClean(w, t, c, files);
        assert Happen(w, e).candidates.Keys == w.candidates.Keys + {t};
      }
    case Complete(_) =>
  }

  lemma {:induction false} AfterStaysClean(w: World, events: seq<Event>)
    requires Clean(w)
    ensures Clean(After(w, events))
    decreases |events|
  {
    if events != [] {
      AfterStaysClean(w, events[..|events| - 1]);
      HappenStaysClean(After(w, events[..|events| - 1]), events[|events| - 1]);
    }
  }

  /** Any number of controllers, crashes and replays make at most one commit in a worktree nobody else changes. */
  lemma AtMostOneCommit(w: World, t: Ticket)
    requires Reachable(w) && t in w.candidates && t !in w.touched
    ensures t in w.created && w.created[t] <= 1
  {
    var start, events :| Initial(start) && w == After(start, events);
    AfterStaysClean(start, events);
    assert CleanTicket(w.store, w.worktrees[t], w.created[t]);
  }

  // ----- A replay from any crash point ends with the same commit -----

  /** What integration may assume of the world before it has committed. */
  ghost predicate Ready(w: World, t: Ticket) {
    && Known(w, t)
    && var c, wt := w.candidates[t], w.worktrees[t];
      var base := w.store[c.base].tree;
      && wt.head == c.base
      && Ancestor(w.store, c.startingSha, c.base)
      && Restrict(wt.files, base, c.approvedNew) == wt.files
      && DiffOf(base, wt.files) == c.fingerprint
      && c.fingerprint.Keys != {} && StatusPaths(w, t) <= c.authorized
      && ExistingBase(w, c) == Some(c.base)
      && (t in w.intents ==> w.intents[t] == Intent(c, false))
  }

  /** And after: the commit is HEAD of a clean worktree, and the head is still at the base or already there. */
  ghost predicate Committed(w: World, t: Ticket, sha: Sha) {
    && Known(w, t) && t in w.intents
    && var c, wt := w.candidates[t], w.worktrees[t];
      && wt.head == sha && sha != c.base
      && Ancestor(w.store, c.startingSha, c.base)
      && Exact(w.store, c, sha)
      && StatusPaths(w, t) == {}
      && (ExistingBase(w, c) == Some(c.base) || ExistingBase(w, c) == Some(sha))
  }

  /** Where a lone integration can be, and what is then true of the world. */
  ghost predicate OnTheWay(w: World, t: Ticket, sha: Sha, p: Proc) {
    match p
    case Started(u) => u == t && (Uncommitted(w, t, sha) || Committed(w, t, sha))
    case HeadSeen(u, live) =>
      u == t && t in w.worktrees && live == w.worktrees[t].head && (Uncommitted(w, t, sha) || Committed(w, t, sha))
    case Inspecting(u) => u == t && Uncommitted(w, t, sha)
    case Fingerprinting(u) => u == t && Uncommitted(w, t, sha)
    case HeadCheck(u) => u == t && Uncommitted(w, t, sha)
    case Intending(u) => u == t && Uncommitted(w, t, sha)
    case Staging(u, m) => u == t && m == Checked && t in w.intents && Uncommitted(w, t, sha)
    case Quiet(u, m) => u == t && m == Checked && t in w.intents && Uncommitted(w, t, sha) && w.worktrees[t].index == w.worktrees[t].files
    case Committing(u, m) => u == t && m == Checked && t in w.intents && Uncommitted(w, t, sha) && w.worktrees[t].index == w.worktrees[t].files
    case NamingHead(u, m) => u == t && m == Checked && Committed(w, t, sha)
    case Recovering(u, live) => u == t && live == sha && Committed(w, t, sha)
    case Verifying(u, s) => u == t && s == sha && Committed(w, t, sha)
    case ReadingHead(u, s) => u == t && s == sha && Committed(w, t, sha) && w.candidates[t].tranche.Some?
    case Advancing(u, s) => u == t && s == sha && Committed(w, t, sha) && CasMatches(w, w.candidates[t])
    case Confirming(u, s) => u == t && s == sha && Committed(w, t, sha) && w.candidates[t].tranche.Some? && ExistingBase(w, w.candidates[t]) == Some(sha)
    case Integrated(u, s) => u == t && s == sha && Committed(w, t, sha) && Installed(w, t, sha)
    case _ => false
  }

  ghost predicate Uncommitted(w: World, t: Ticket, sha: Sha) {
    Ready(w, t) && sha == |w.store|
  }

  /** The commit is the tranche head; without a tranche there is no head to move. */
  predicate Installed(w: World, t: Ticket, sha: Sha) {
    t in w.candidates && (w.candidates[t].tranche == None || ExistingBase(w, w.candidates[t]) == Some(sha))
  }

  /** How many commands are left at most. */
  function Left(p: Proc): nat {
    match p
    case Started(_) => 14
    case HeadSeen(_, _) => 13
    case Inspecting(_) => 12
    case Fingerprinting(_) => 11
    case HeadCheck(_) => 10
    case Intending(_) => 9
    case Staging(_, _) => 8
    case Quiet(_, _) => 7
    case Committing(_, _) => 6
    case NamingHead(_, _) => 5
    case Recovering(_, _) => 5
    case Verifying(_, _) => 4
    case ReadingHead(_, _) => 3
    case Advancing(_, _) => 2
    case Confirming(_, _) => 1
    case _ => 0
  }

  lemma NoDiff(tree: Tree)
    ensures DiffOf(tree, tree).Keys == {}
  {
  }

  lemma ChangesShow(w: World, t: Ticket)
    requires Ready(w, t)
    ensures Known(w, t) && StatusPaths(w, t) != {}
    ensures w.worktrees[t].files != HeadTree(w, t)
  {
    NoDiff(HeadTree(w, t));
  }

  /** The commit of all the files, on the base. */
  ghost predicate AcceptedCommitted(w: World, w': World, t: Ticket)
    requires Known(w, t)
  {
    w' == CommitIn(w, t, [], w.worktrees[t].files, w.candidates[t].message).(created := w.created[t := w.created[t] + 1])
  }

  lemma CommitsTheFiles(w: World, t: Ticket)
    requires Known(w, t) && w.worktrees[t].index == w.worktrees[t].files != HeadTree(w, t)
    ensures AcceptedCommitted(w, Integrate(w, Committing(t, Checked)).0, t)
  {
    hide StatusPaths, CommitIn, HeadTree;
  }

  lemma CommitIsExact(w: World, w': World, t: Ticket)
    requires Ready(w, t) && AcceptedCommitted(w, w', t)
    ensures Exact(w'.store, w.candidates[t], |w.store|)
  {
    hide Ancestor, Restrict, CasMatches, ExistingBase;
    var c := w.candidates[t];
    assert w'.store[c.base] == w.store[c.base];
    assert c.fingerprint.Keys <= StatusPaths(w, t);
  }

  lemma CommitArrives(w: World, w': World, t: Ticket)
    requires Ready(w, t) && t in w.intents && w.worktrees[t].index == w.worktrees[t].files && AcceptedCommitted(w, w', t)
    ensures Committed(w', t, |w.store|)
  {
    hide Ancestor, Restrict, CasMatches, Exact;
    CommitIsExact(w, w', t);
    NoDiff(w.worktrees[t].files);
    AncestorStable(w.store, w'.store, w.candidates[t].startingSha, w.candidates[t].base);
  }

  /** What the next command of a lone integration does before it commits. */
  ghost function UncommittedNext(w: World, t: Ticket, p: Proc): (World, Proc)
    requires t in w.candidates && t in w.worktrees
  {
    match p
    case Started(_) => (w, HeadSeen(t, w.worktrees[t].head))
    case HeadSeen(_, _) => (w, Inspecting(t))
    case Inspecting(_) => (w, Fingerprinting(t))
    case Fingerprinting(_) => (w, HeadCheck(t))
    case HeadCheck(_) => (w, Intending(t))
    case Intending(_) => (if t in w.intents then w else w.(intents := w.intents[t := Intent(w.candidates[t], false)]), Staging(t, Checked))
    case Staging(_, _) => (w.(worktrees := w.worktrees[t := w.worktrees[t].(index := w.worktrees[t].files)]), Quiet(t, Checked))
    case Quiet(_, _) => (w, Committing(t, Checked))
    case _ => (w, p)
  }

  lemma UncommittedDoes(w: World, t: Ticket, p: Proc)
    requires OnTheWay(w, t, |w.store|, p) && Ready(w, t) && !p.Committing? && !Committed(w, t, |w.store|)
    ensures t in w.candidates && t in w.worktrees && !Resolves(p) && p.ticket == t && Integrate(w, p) == UncommittedNext(w, t, p)
    ensures p.Started? || p.HeadSeen? || p.Inspecting? || p.Fingerprinting? || p.HeadCheck? || p.Intending? || p.Staging? || p.Quiet?
  {
    hide Committed, Exact, MoveHead, Return, CasMatches, Installed, CommitIn;
    ChangesShow(w, t);
  }

  lemma UncommittedReads(w: World, t: Ticket, p: Proc)
    requires OnTheWay(w, t, |w.store|, p) && Ready(w, t) && t in w.candidates && t in w.worktrees
    requires p.Started? || p.HeadSeen? || p.Inspecting? || p.Fingerprinting? || p.HeadCheck? || p.Quiet? || (p.Intending? && t in w.intents)
    ensures UncommittedNext(w, t, p).0 == w
    ensures OnTheWay(w, t, |w.store|, UncommittedNext(w, t, p).1) && Left(UncommittedNext(w, t, p).1) < Left(p)
  {
    hide Ready, Committed, Installed, CasMatches, ExistingBase;
  }

  lemma IntentKeepsReady(w: World, t: Ticket)
    requires Ready(w, t) && t !in w.intents
    ensures Ready(w.(intents := w.intents[t := Intent(w.candidates[t], false)]), t)
  {
    hide DiffOf, Restrict, Ancestor;
    assert StatusPaths(w.(intents := w.intents[t := Intent(w.candidates[t], false)]), t) == StatusPaths(w, t);
  }

  lemma StagingKeepsReady(w: World, t: Ticket)
    requires Ready(w, t)
    ensures Ready(w.(worktrees := w.worktrees[t := w.worktrees[t].(index := w.worktrees[t].files)]), t)
  {
    hide DiffOf, Restrict, Ancestor;
  }

  lemma UncommittedLeads(w: World, t: Ticket, p: Proc)
    requires OnTheWay(w, t, |w.store|, p) && Ready(w, t) && t in w.candidates && t in w.worktrees
    requires p.Started? || p.HeadSeen? || p.Inspecting? || p.Fingerprinting? || p.HeadCheck? || p.Intending? || p.Staging? || p.Quiet?
    ensures var (w', p') := UncommittedNext(w, t, p);
      OnTheWay(w', t, |w.store|, p') && Left(p') < Left(p) && w'.store == w.store
  {
    hide Ready, Committed;
    if p.Staging? {
      StagingKeepsReady(w, t);
    } else if p.Intending? && t !in w.intents {
      IntentKeepsReady(w, t);
    } else {
      UncommittedReads(w, t, p);
      hide OnTheWay;
    }
  }

  lemma UncommittedStep(w: World, t: Ticket, p: Proc)
    requires OnTheWay(w, t, |w.store|, p) && Ready(w, t) && !p.Committing? && !Committed(w, t, |w.store|)
    ensures var (w', p') := Integrate(w, p);
      OnTheWay(w', t, |w.store|, p') && Left(p') < Left(p) && w'.store == w.store
  {
    UncommittedDoes(w, t, p);
    hide *;
    UncommittedLeads(w, t, p);
  }

  /** Only the heads matter beyond the repository and the frozen records. */
  lemma CommittedElsewhere(w: World, w': World, t: Ticket, sha: Sha)
    requires Committed(w, t, sha)
    requires w'.store == w.store && w'.candidates == w.candidates && w'.worktrees == w.worktrees && w'.intents == w.intents
    requires w'.lineage == w.lineage && w'.created == w.created
    requires ExistingBase(w', w.candidates[t]) == Some(w.candidates[t].base) || ExistingBase(w', w.candidates[t]) == Some(sha)
    ensures Committed(w', t, sha)
  {
    assert StatusPaths(w', t) == StatusPaths(w, t);
    hide StatusPaths, Exact, Ancestor, ExistingBase;
  }

  /** What the next command of a lone integration does once its commit is there. */
  ghost function CommittedNext(w: World, t: Ticket, sha: Sha, p: Proc): (World, Proc)
    requires t in w.candidates
  {
    var c := w.candidates[t];
    match p
    case Started(_) => (w, HeadSeen(t, sha))
    case HeadSeen(_, _) => (w, Recovering(t, sha))
    case NamingHead(_, _) => (w, Verifying(t, sha))
    case Recovering(_, _) => (w, Verifying(t, sha))
    case Verifying(_, _) => if c.tranche == None then Return(w, t, sha) else (w, ReadingHead(t, sha))
    case ReadingHead(_, _) => (w, if ExistingBase(w, c) == Some(c.base) then Advancing(t, sha) else Confirming(t, sha))
    case Advancing(_, _) => if c.tranche.Some? then (MoveHead(w, c.tranche.value, sha, Integration(t)), Confirming(t, sha)) else (w, Failed)
    case Confirming(_, _) => Return(w, t, sha)
    case _ => (w, p)
  }

  lemma CommittedDoes(w: World, t: Ticket, sha: Sha, p: Proc)
    requires OnTheWay(w, t, sha, p) && Committed(w, t, sha) && !p.Integrated? && !Resolves(p) && p.ticket == t && Known(w, t)
    requires p.Started? || p.HeadSeen? || p.NamingHead? || p.Recovering? || p.Verifying? || p.ReadingHead? || p.Advancing? || p.Confirming?
    ensures Integrate(w, p) == CommittedNext(w, t, sha, p)
  {
    hide StatusPaths, Exact, Ancestor, Ready, DiffOf, Restrict, MoveHead, Return, Left;
  }

  lemma CommittedLooks(w: World, t: Ticket, sha: Sha, p: Proc)
    requires Committed(w, t, sha) && t in w.worktrees && t in w.candidates
    requires p.Started? || p.HeadSeen? || p.NamingHead? || p.Recovering?
    ensures CommittedNext(w, t, sha, p).0 == w
    ensures OnTheWay(w, t, sha, CommittedNext(w, t, sha, p).1) && Left(CommittedNext(w, t, sha, p).1) < Left(p)
  {
    hide Committed, Uncommitted, Ready, Known, MoveHead, Return, ExistingBase, CasMatches, Installed, StatusPaths, Exact, Ancestor;
    CommittedHead(w, t, sha);
  }

  lemma MayAdvance(w: World, t: Ticket, sha: Sha)
    requires Committed(w, t, sha) && t in w.candidates && w.candidates[t].tranche.Some?
    ensures var c := w.candidates[t];
      OnTheWay(w, t, sha, if ExistingBase(w, c) == Some(c.base) then Advancing(t, sha) else Confirming(t, sha))
  {
    hide Committed, Uncommitted, ExistingBase, CasMatches;
    CasIsBase(w, w.candidates[t]);
    CommittedHead(w, t, sha);
  }

  lemma CommittedReads(w: World, t: Ticket, sha: Sha, p: Proc)
    requires Committed(w, t, sha) && t in w.candidates && w.candidates[t].tranche.Some?
    requires p.ReadingHead? || p.Verifying?
    ensures CommittedNext(w, t, sha, p).0 == w
    ensures OnTheWay(w, t, sha, CommittedNext(w, t, sha, p).1) && Left(CommittedNext(w, t, sha, p).1) < Left(p)
  {
    hide Committed, ExistingBase, MoveHead, Return, CasMatches, Uncommitted, Known, Installed;
    MayAdvance(w, t, sha);
  }

  lemma CasIsBase(w: World, c: Candidate)
    requires c.tranche.Some?
    ensures CasMatches(w, c) <==> ExistingBase(w, c) == Some(c.base)
  {
  }

  lemma CommittedHead(w: World, t: Ticket, sha: Sha)
    requires Committed(w, t, sha)
    ensures w.worktrees[t].head == sha
    ensures ExistingBase(w, w.candidates[t]) == Some(w.candidates[t].base) || ExistingBase(w, w.candidates[t]) == Some(sha)
  {
  }

  lemma CommittedReturns(w: World, t: Ticket, sha: Sha)
    requires Committed(w, t, sha) && Installed(w, t, sha)
    ensures Return(w, t, sha).1 == Integrated(t, sha) && OnTheWay(Return(w, t, sha).0, t, sha, Integrated(t, sha))
  {
    hide Ready, Exact, Ancestor, StatusPaths;
    CommittedElsewhere(w, Return(w, t, sha).0, t, sha);
  }

  lemma CommittedMoves(w: World, t: Ticket, sha: Sha)
    requires Committed(w, t, sha) && CasMatches(w, w.candidates[t])
    ensures OnTheWay(MoveHead(w, w.candidates[t].tranche.value, sha, Integration(t)), t, sha, Confirming(t, sha))
  {
    hide Ready, Exact, Ancestor, StatusPaths;
    CommittedElsewhere(w, MoveHead(w, w.candidates[t].tranche.value, sha, Integration(t)), t, sha);
  }

  /** In its last places, the head is where the next command needs it. */
  lemma CommittedHeadFits(w: World, t: Ticket, sha: Sha, p: Proc)
    requires OnTheWay(w, t, sha, p) && Committed(w, t, sha) && t in w.candidates
    ensures p.Advancing? || p.ReadingHead? ==> w.candidates[t].tranche.Some?
    ensures p.Advancing? ==> CasMatches(w, w.candidates[t])
    ensures p.Confirming? ==> Installed(w, t, sha)
  {
    hide Committed, Ready, Uncommitted;
  }

  lemma CommittedLeads(w: World, t: Ticket, sha: Sha, p: Proc)
    requires OnTheWay(w, t, sha, p) && Committed(w, t, sha) && Known(w, t)
    requires p.Started? || p.HeadSeen? || p.NamingHead? || p.Recovering? || p.Verifying? || p.ReadingHead? || p.Advancing? || p.Confirming?
    ensures var (w', p') := CommittedNext(w, t, sha, p);
      OnTheWay(w', t, sha, p') && Left(p') < Left(p)
  {
    hide OnTheWay, Committed, MoveHead, Return, Ready, Uncommitted, CasMatches, ExistingBase;
    CommittedHeadFits(w, t, sha, p);
    if p.Advancing? {
      CommittedMoves(w, t, sha);
    } else if p.Confirming? || (p.Verifying? && w.candidates[t].tranche == None) {
      CommittedReturns(w, t, sha);
    } else if p.Verifying? || p.ReadingHead? {
      CommittedReads(w, t, sha, p);
    } else {
      CommittedLooks(w, t, sha, p);
    }
  }

  lemma CommittedStep(w: World, t: Ticket, sha: Sha, p: Proc)
    requires OnTheWay(w, t, sha, p) && Committed(w, t, sha) && !p.Integrated? && !Resolves(p) && Known(w, p.ticket)
    ensures var (w', p') := Integrate(w, p);
      OnTheWay(w', t, sha, p') && Left(p') < Left(p)
  {
    CommittedIsPast(w, t, sha, p);
    CommittedDoes(w, t, sha, p);
    CommittedLeads(w, t, sha, p);
    hide *;
  }

  /** Once committed, a lone integration is in one of these places. */
  lemma CommittedIsPast(w: World, t: Ticket, sha: Sha, p: Proc)
    requires OnTheWay(w, t, sha, p) && Committed(w, t, sha) && !p.Integrated?
    ensures p.Started? || p.HeadSeen? || p.NamingHead? || p.Recovering? || p.Verifying? || p.ReadingHead? || p.Advancing? || p.Confirming?
    ensures !Resolves(p) && p.ticket == t && Known(w, t)
  {
    hide Exact, StatusPaths, Ancestor;
  }

  /** Until then it is in one of the places before. */
  lemma UncommittedIsEarly(w: World, t: Ticket, sha: Sha, p: Proc)
    requires OnTheWay(w, t, sha, p) && !Committed(w, t, sha)
    ensures Ready(w, t) && sha == |w.store| && !Resolves(p) && !Forwards(p) && p.ticket == t && Known(w, t)
    ensures p.Committing? ==> p == Committing(t, Checked) && t in w.intents && w.worktrees[t].index == w.worktrees[t].files
  {
    hide Committed, StatusPaths, Exact, Ancestor, ExistingBase, Restrict, DiffOf, Installed, CasMatches;
  }

  lemma StepGetsCloser(w: World, t: Ticket, sha: Sha, p: Proc)
    requires OnTheWay(w, t, sha, p) && !p.Integrated?
    ensures var (w', p') := Command(w, p);
      OnTheWay(w', t, sha, p') && Left(p') < Left(p)
  {
    hide OnTheWay, Ready, Committed, Integrate, Left;
    if Committed(w, t, sha) {
      CommittedIsPast(w, t, sha, p);
      CommittedStep(w, t, sha, p);
    } else {
      UncommittedIsEarly(w, t, sha, p);
      if p.Committing? {
        CommitStep(w, t);
      } else {
        UncommittedStep(w, t, p);
      }
    }
  }

  lemma ChangesAreCommitted(w: World, t: Ticket)
    requires Known(w, t) && w.worktrees[t].index != HeadTree(w, t)
    ensures Integrate(w, Committing(t, Checked)).1 == NamingHead(t, Checked)
  {
    hide StatusPaths, CommitIn, HeadTree, Known;
  }

  lemma CommitStep(w: World, t: Ticket)
    requires Ready(w, t) && t in w.intents && w.worktrees[t].index == w.worktrees[t].files
    ensures var (w', p') := Integrate(w, Committing(t, Checked));
      OnTheWay(w', t, |w.store|, p') && Left(p') < Left(Committing(t, Checked))
  {
    hide Integrate, Ready, Committed, StatusPaths, HeadTree, Known;
    ChangesShow(w, t);
    ChangesAreCommitted(w, t);
    CommitsTheFiles(w, t);
    CommitArrives(w, Integrate(w, Committing(t, Checked)).0, t);
  }

  /** n commands of one controller, with nobody else about. */
  ghost function Alone(w: World, i: nat, n: nat): World {
    if n == 0 then w else Happen(Alone(w, i, n - 1), Continue(i))
  }

  /** Which controllers hold which program counters changes nothing else about the world. */
  lemma ProcsAside(w: World, procs: map<nat, Proc>, t: Ticket, sha: Sha, p: Proc)
    requires OnTheWay(w, t, sha, p)
    ensures OnTheWay(w.(procs := procs), t, sha, p)
    ensures p.Integrated? || Left(p) >= 1
  {
    var w' := w.(procs := procs);
    if Known(w, t) {
      assert StatusPaths(w', t) == StatusPaths(w, t);
    }
  }

  lemma MayStartAgain(w: World, t: Ticket, sha: Sha, p: Proc)
    requires OnTheWay(w, t, sha, p)
    ensures OnTheWay(w, t, sha, Started(t))
  {
    hide Ready, Committed;
  }

  lemma OneMore(w: World, t: Ticket, sha: Sha, i: nat)
    requires OnTheWay(w, t, sha, ProcOf(w, i))
    ensures var w' := Happen(w, Continue(i));
      OnTheWay(w', t, sha, ProcOf(w', i)) && (Left(ProcOf(w, i)) > 0 ==> Left(ProcOf(w', i)) < Left(ProcOf(w, i)))
        && (Left(ProcOf(w, i)) == 0 ==> Left(ProcOf(w', i)) == 0)
  {
    hide OnTheWay, ExistingBase, Installed;
    var p := ProcOf(w, i);
    ProcsAside(w, w.procs, t, sha, p);
    if p.Integrated? {
      Rests(w, t, sha, p);
    } else {
      StepGetsCloser(w, t, sha, p);
    }
    hide Command;
    var (w', p') := Command(w, p);
    ProcsAside(w', w'.procs[i := p'], t, sha, p');
  }

  lemma {:induction false} AloneStays(w: World, t: Ticket, sha: Sha, i: nat, n: nat)
    requires OnTheWay(w, t, sha, ProcOf(w, i))
    ensures OnTheWay(Alone(w, i, n), t, sha, ProcOf(Alone(w, i, n), i))
    ensures Left(ProcOf(Alone(w, i, n), i)) <= if n < Left(ProcOf(w, i)) then Left(ProcOf(w, i)) - n else 0
    decreases n
  {
    hide OnTheWay, Happen, Left;
    if n > 0 {
      AloneStays(w, t, sha, i, n - 1);
      OneMore(Alone(w, i, n - 1), t, sha, i);
    }
  }

  lemma Rests(w: World, t: Ticket, sha: Sha, p: Proc)
    requires OnTheWay(w, t, sha, p) && p.Integrated?
    ensures Command(w, p) == (w, p)
  {
  }

  /** A run that dies: the controller that starts integration, and the number of commands it gets done. */
  datatype CutOff = CutOff(controller: nat, commands: nat)

  ghost function AfterCutOff(w: World, t: Ticket, run: CutOff): World {
    Happen(Alone(Happen(w, Begin(run.controller, IntegrateCandidate(t))), run.controller, run.commands), Crash(run.controller))
  }

  ghost function AfterCutOffs(w: World, t: Ticket, runs: seq<CutOff>): World {
    if runs == [] then w else AfterCutOff(AfterCutOffs(w, t, runs[..|runs| - 1]), t, runs[|runs| - 1])
  }

  lemma StartedStays(w: World, t: Ticket, sha: Sha, i: nat, n: nat)
    requires OnTheWay(w, t, sha, Started(t))
    ensures var later := Alone(Happen(w, Begin(i, IntegrateCandidate(t))), i, n);
      OnTheWay(later, t, sha, ProcOf(later, i)) && Left(ProcOf(later, i)) <= if n < 14 then 14 - n else 0
  {
    hide OnTheWay, Alone;
    var started := Happen(w, Begin(i, IntegrateCandidate(t)));
    ProcsAside(w, started.procs, t, sha, Started(t));
    AloneStays(started, t, sha, i, n);
  }

  lemma CutOffStays(w: World, t: Ticket, sha: Sha, run: CutOff)
    requires OnTheWay(w, t, sha, Started(t))
    ensures OnTheWay(AfterCutOff(w, t, run), t, sha, Started(t))
  {
    hide OnTheWay, Alone;
    StartedStays(w, t, sha, run.controller, run.commands);
    var cut := Alone(Happen(w, Begin(run.controller, IntegrateCandidate(t))), run.controller, run.commands);
    MayStartAgain(cut, t, sha, ProcOf(cut, run.controller));
    ProcsAside(cut, AfterCutOff(w, t, run).procs, t, sha, Started(t));
  }

  lemma {:induction false} CutOffsStay(w: World, t: Ticket, sha: Sha, runs: seq<CutOff>)
    requires OnTheWay(w, t, sha, Started(t))
    ensures OnTheWay(AfterCutOffs(w, t, runs), t, sha, Started(t))
    decreases |runs|
  {
    if runs != [] {
      hide OnTheWay, AfterCutOff;
      CutOffsStay(w, t, sha, runs[..|runs| - 1]);
      CutOffStays(AfterCutOffs(w, t, runs[..|runs| - 1]), t, sha, runs[|runs| - 1]);
    }
  }

  /**
    Integration of a ready ticket is started any number of times, by any
    controllers, each cut off after any number of commands; then it is started
    once more and left alone. Whatever the crash points, the result is the same:
    one new commit, the first after everything that was there, returned by the
    last run and installed as the tranche head.
   */
  lemma EveryCrashPointRecovers(w: World, t: Ticket, runs: seq<CutOff>, j: nat, m: nat)
    requires Ready(w, t) && m >= 14
    ensures var done := Alone(Happen(AfterCutOffs(w, t, runs), Begin(j, IntegrateCandidate(t))), j, m);
      && ProcOf(done, j) == Integrated(t, |w.store|)
      && Committed(done, t, |w.store|) && Installed(done, t, |w.store|)
  {
    hide Ready, Committed, Command, Alone, Installed;
    var sha: Sha := |w.store|;
    assert OnTheWay(w, t, sha, Started(t));
    CutOffsStay(w, t, sha, runs);
    StartedStays(AfterCutOffs(w, t, runs), t, sha, j, m);
    var done := Alone(Happen(AfterCutOffs(w, t, runs), Begin(j, IntegrateCandidate(t))), j, m);
    ProcsAside(done, done.procs, t, sha, ProcOf(done, j));
  }
}
