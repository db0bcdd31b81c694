/**
  When integration can commit in a worktree, now or a further time. Controllers
  left to themselves commit once (IntegrationReplay); here outsiders may have
  edited the worktree or committed in it.
 */
module IntegrationCommits {
  import opened Options
  import opened CommitGraph
  import opened IntegrationHead
  import opened IntegrationReplay

  /** An outsider changes the worktree of t. */
  predicate Touches(e: Event, t: Ticket) {
    (e.Edit? || e.CommitByOthers?) && e.ticket == t
  }

  ghost predicate LeftAlone(events: seq<Event>, t: Ticket) {
    forall k :: 0 <= k < |events| ==> !Touches(events[k], t)
  }

  /** There is something to stage, or something is staged and a controller is on its way to commit it. */
  ghost predicate CanCommit(w: World, t: Ticket)
    requires Known(w, t)
  {
    || w.worktrees[t].files != HeadTree(w, t)
    || (w.worktrees[t].index != HeadTree(w, t) && exists i :: i in w.procs && AboutToCommit(w.procs[i], t))
  }

  /** What one step leaves of the ticket. */
  ghost predicate SameTicket(w: World, w': World, t: Ticket)
    requires Known(w, t)
  {
    && Known(w', t) && w.store <= w'.store
    && w'.candidates[t] == w.candidates[t] && w'.worktrees[t] == w.worktrees[t] && w'.created[t] == w.created[t]
  }

  lemma StagingElsewhere(w: World, p: Proc, t: Ticket)
    requires Known(w, t) && p.Staging? && p.ticket != t
    ensures SameTicket(w, Command(w, p).0, t) && Command(w, p).0.procs == w.procs
  {
    hide StatusPaths, HeadTree;
  }

  lemma CommittingElsewhere(w: World, p: Proc, t: Ticket)
    requires Known(w, t) && p.Committing? && p.ticket != t
    ensures SameTicket(w, Command(w, p).0, t) && Command(w, p).0.procs == w.procs
  {
    hide StatusPaths, HeadTree;
  }

  lemma OtherCommands(w: World, p: Proc, t: Ticket)
    requires Known(w, t) && !((p.Staging? || p.Committing?) && p.ticket == t)
    ensures SameTicket(w, Command(w, p).0, t) && Command(w, p).0.procs == w.procs
    ensures AboutToCommit(Command(w, p).1, t) ==> AboutToCommit(p, t)
  {
    hide Command;
    if AboutToCommit(Command(w, p).1, t) {
      OnlyStagingStages(w, p, t);
    }
    if p.Staging? {
      StagingElsewhere(w, p, t);
    } else if p.Committing? {
      CommittingElsewhere(w, p, t);
    } else {
      OthersLeaveWorktrees(w, p);
    }
  }

  // ----- Exactly when -----

  /** n commits so far, and no further one to come. */
  ghost predicate Still(w: World, t: Ticket, n: nat) {
    Known(w, t) && w.created[t] == n && !CanCommit(w, t)
  }

  /** The command of one controller, with its new place put down. */
  lemma CommandStaysStill(w: World, t: Ticket, n: nat, i: nat)
    requires Still(w, t, n)
    ensures Still(Happen(w, Continue(i)), t, n)
  {
    var p := ProcOf(w, i);
    if (p.Staging? || p.Committing?) && p.ticket == t {
      StageOrCommitStaysStill(w, t, n, i);
    } else {
      OtherCommands(w, p, t);
      hide Command;
      var w' := Happen(w, Continue(i));
      assert HeadTree(w', t) == HeadTree(w, t);
      forall j | j in w'.procs && AboutToCommit(w'.procs[j], t) ensures j in w.procs && AboutToCommit(w.procs[j], t) {
      }
    }
  }

  lemma StageOrCommitStaysStill(w: World, t: Ticket, n: nat, i: nat)
    requires Still(w, t, n) && (ProcOf(w, i).Staging? || ProcOf(w, i).Committing?) && ProcOf(w, i).ticket == t
    ensures Still(Happen(w, Continue(i)), t, n)
  {
    var w' := Happen(w, Continue(i));
    var p := ProcOf(w, i);
    if p.Committing? {
      assert AboutToCommit(w.procs[i], t);
      assert w' == w.(procs := w.procs[i := Failed]);
      forall j | j in w'.procs && AboutToCommit(w'.procs[j], t) ensures j in w.procs && AboutToCommit(w.procs[j], t) {
      }
    } else {
      assert w'.worktrees[t].index == HeadTree(w', t);
    }
  }

  lemma CommitElsewhereLeavesTicket(w: World, t: Ticket, e: Event)
    requires Known(w, t) && e.CommitByOthers? && e.ticket != t
    ensures SameTicket(w, Happen(w, e), t)
  {
    hide Command, StatusPaths, HeadTree;
  }

  lemma OthersLeaveTicket(w: World, t: Ticket, e: Event)
    requires Known(w, t) && !e.Continue? && !Touches(e, t)
    ensures SameTicket(w, Happen(w, e), t)
  {
    hide Command, StatusPaths, HeadTree, CommitIn;
    if e.CommitByOthers? {
      CommitElsewhereLeavesTicket(w, t, e);
    }
  }

  lemma OthersStageNothing(w: World, t: Ticket, e: Event, j: nat)
    requires !e.Continue? && j in Happen(w, e).procs && AboutToCommit(Happen(w, e).procs[j], t)
    ensures j in w.procs && AboutToCommit(w.procs[j], t)
  {
    hide Command, StatusPaths, HeadTree;
  }

  lemma EventStaysStill(w: World, t: Ticket, n: nat, e: Event)
    requires Still(w, t, n) && !Touches(e, t)
    ensures Still(Happen(w, e), t, n)
  {
    if e.Continue? {
      CommandStaysStill(w, t, n, e.i);
    } else {
      OthersLeaveTicket(w, t, e);
      var w' := Happen(w, e);
      forall j | j in w'.procs && AboutToCommit(w'.procs[j], t) ensures j in w.procs && AboutToCommit(w.procs[j], t) {
        OthersStageNothing(w, t, e, j);
      }
      hide Happen, AboutToCommit;
      assert HeadTree(w', t) == HeadTree(w, t);
    }
  }

  lemma {:induction false} StaysStill(w: World, t: Ticket, n: nat, events: seq<Event>)
    requires Still(w, t, n) && LeftAlone(events, t)
    ensures Still(After(w, events), t, n)
    decreases |events|
  {
    if events != [] {
      hide Still, Happen;
      StaysStill(w, t, n, events[..|events| - 1]);
      EventStaysStill(After(w, events[..|events| - 1]), t, n, events[|events| - 1]);
    }
  }

  /** Some further run without outsiders commits in the worktree. */
  ghost predicate Commits(w: World, t: Ticket, events: seq<Event>)
    requires Known(w, t)
  {
    LeftAlone(events, t) && t in After(w, events).created && After(w, events).created[t] > w.created[t]
  }

  lemma AfterOne(w: World, e: Event)
    ensures After(w, [e]) == Happen(w, e)
  {
    assert [e][..0] == [];
  }

  lemma AfterThen(w: World, events: seq<Event>, e: Event)
    ensures After(w, events + [e]) == Happen(After(w, events), e)
  {
    assert (events + [e])[..|events|] == events;
  }

  /** There is something staged for this controller to commit. */
  ghost predicate WillCommit(w: World, t: Ticket, i: nat) {
    Known(w, t) && i in w.procs && AboutToCommit(w.procs[i], t) && w.worktrees[t].index != HeadTree(w, t)
  }

  lemma QuietGoesOn(w: World, t: Ticket, i: nat)
    requires WillCommit(w, t, i) && w.procs[i].Quiet?
    ensures var w' := Happen(w, Continue(i));
      WillCommit(w', t, i) && w'.procs[i].Committing? && w'.created[t] == w.created[t]
  {
  }

  lemma CommitIsCounted(w: World, t: Ticket, i: nat)
    requires WillCommit(w, t, i) && w.procs[i].Committing?
    ensures var w' := Happen(w, Continue(i)); t in w'.created && w'.created[t] == w.created[t] + 1
  {
  }

  /** A controller about to commit does so, in at most two steps. */
  lemma StagedIsCommitted(w: World, t: Ticket, before: seq<Event>, i: nat)
    requires Known(w, t) && LeftAlone(before, t)
    requires WillCommit(After(w, before), t, i) && After(w, before).created[t] == w.created[t]
    ensures exists events :: Commits(w, t, events)
    decreases After(w, before).procs[i].Quiet?
  {
    hide Happen, After, Known, HeadTree;
    var v := After(w, before);
    AfterThen(w, before, Continue(i));
    var events := before + [Continue(i)];
    if v.procs[i].Quiet? {
      QuietGoesOn(v, t, i);
      StagedIsCommitted(w, t, events, i);
    } else {
      CommitIsCounted(v, t, i);
      assert Commits(w, t, events);
    }
  }

  /** Files that differ from HEAD are staged by the older path, which looks at nothing, and then committed. */
  lemma FilesAreStaged(w: World, t: Ticket)
    requires Known(w, t) && w.worktrees[t].files != HeadTree(w, t)
    ensures var w' := Happen(Happen(w, Begin(0, ExecuteDirectly(t))), Continue(0));
      WillCommit(w', t, 0) && w'.created[t] == w.created[t]
  {
  }

  lemma FilesAreCommitted(w: World, t: Ticket)
    requires Known(w, t) && w.worktrees[t].files != HeadTree(w, t)
    ensures exists events :: Commits(w, t, events)
  {
    hide Happen, After, HeadTree;
    FilesAreStaged(w, t);
    AfterOne(w, Begin(0, ExecuteDirectly(t)));
    AfterThen(w, [Begin(0, ExecuteDirectly(t))], Continue(0));
    StagedIsCommitted(w, t, [Begin(0, ExecuteDirectly(t))] + [Continue(0)], 0);
  }

  /**
    Whatever outsiders have done so far: if they now leave the worktree alone, a
    further commit in it is possible exactly when the files differ from HEAD, or
    something else than HEAD is staged and a controller is between its staging
    and its commit.
   */
  lemma FurtherCommitIff(w: World, t: Ticket)
    requires Known(w, t)
    ensures (exists events :: Commits(w, t, events)) <==> CanCommit(w, t)
  {
    hide Happen, HeadTree;
    if CanCommit(w, t) {
      if w.worktrees[t].files != HeadTree(w, t) {
        FilesAreCommitted(w, t);
      } else {
        var i :| i in w.procs && AboutToCommit(w.procs[i], t);
        assert After(w, []) == w;
        StagedIsCommitted(w, t, [], i);
      }
    } else {
      forall events ensures !Commits(w, t, events) {
        if LeftAlone(events, t) {
          StaysStill(w, t, w.created[t], events);
        }
      }
    }
  }

  // ----- Later integrations -----

  /** The controller looked at HEAD while it was still the base, or stages without looking. */
  ghost predicate Early(w: World, p: Proc, t: Ticket)
    requires Known(w, t)
  {
    && Inside(p) && p.ticket == t && (p.HeadSeen? ==> p.live == w.candidates[t].base)
  }

  /** HEAD has left the base, and no controller is early. */
  ghost predicate Late(w: World, t: Ticket, n: nat) {
    && Known(w, t) && w.created[t] == n && w.worktrees[t].head != w.candidates[t].base
    && forall i :: i in w.procs ==> !Early(w, w.procs[i], t)
  }

  predicate Inside(p: Proc) {
    p.HeadSeen? || p.Inspecting? || p.Fingerprinting? || p.HeadCheck? || p.Intending? || p.Staging? || p.Quiet? || p.Committing?
  }

  lemma RefsStayOutside(w: World, p: Proc)
    requires Forwards(p) || Resolves(p)
    ensures !Inside(Command(w, p).1)
  {
    hide Integrate, DiffOf, LinearFrom, CasMatches, MoveHead;
  }

  lemma LookedFirst(w: World, p: Proc)
    requires !Resolves(p) && Known(w, p.ticket) && !Inside(p) && Inside(Integrate(w, p).1)
    ensures p.Started? && Integrate(w, p).1 == HeadSeen(p.ticket, w.worktrees[p.ticket].head)
  {
    hide DiffOf, Restrict, Ancestor, Exact, StatusPaths, HeadTree, ExistingBase, CommitIn, CasMatches, MoveHead, Known;
  }

  lemma SawTheBase(w: World, p: Proc)
    requires !Resolves(p) && Known(w, p.ticket) && Inside(p) && Inside(Integrate(w, p).1)
    ensures p.ticket == Integrate(w, p).1.ticket && !Integrate(w, p).1.HeadSeen?
    ensures p.HeadSeen? ==> p.live == w.candidates[p.ticket].base
  {
    hide DiffOf, Restrict, Ancestor, Exact, StatusPaths, HeadTree, ExistingBase, CommitIn, CasMatches, MoveHead, Known;
  }

  lemma LateCommand(w: World, p: Proc, t: Ticket)
    requires Known(w, t) && w.worktrees[t].head != w.candidates[t].base && !Early(w, p, t)
    ensures !Early(w, Command(w, p).1, t)
  {
    hide Integrate, Forward, ResolveBase;
    if Forwards(p) || Resolves(p) {
      RefsStayOutside(w, p);
    } else if Known(w, p.ticket) && Inside(Integrate(w, p).1) {
      if Inside(p) {
        SawTheBase(w, p);
      } else {
        LookedFirst(w, p);
      }
    }
  }

  lemma CommandStaysLate(w: World, t: Ticket, n: nat, i: nat)
    requires Late(w, t, n)
    ensures Late(Happen(w, Continue(i)), t, n)
  {
    var p := ProcOf(w, i);
    assert !Early(w, p, t);
    OtherCommands(w, p, t);
    LateCommand(w, p, t);
    hide Command;
  }

  /** Others may commit on top or edit, which moves HEAD only further from the base. */
  lemma TouchStaysLate(w: World, t: Ticket, n: nat, e: Event)
    requires Late(w, t, n) && Touches(e, t)
    ensures Late(Happen(w, e), t, n)
  {
    var w' := Happen(w, e);
    assert w'.procs == w.procs && w'.candidates == w.candidates;
    forall i | i in w'.procs ensures !Early(w', w'.procs[i], t) {
      assert !Early(w, w.procs[i], t);
    }
  }

  lemma OtherEventStaysLate(w: World, t: Ticket, n: nat, e: Event)
    requires Late(w, t, n) && !e.Continue? && !Touches(e, t) && !(e.Begin? && e.op == ExecuteDirectly(t))
    ensures Late(Happen(w, e), t, n)
  {
    OthersLeaveTicket(w, t, e);
    hide Command, HeadTree, CommitIn;
    var w' := Happen(w, e);
    forall i | i in w'.procs ensures !Early(w', w'.procs[i], t) {
      assert i in w.procs ==> !Early(w, w.procs[i], t);
    }
  }

  /** No run of integration starts over the older path. */
  ghost predicate NoDirectPath(events: seq<Event>, t: Ticket) {
    forall k :: 0 <= k < |events| ==> !(events[k].Begin? && events[k].op == ExecuteDirectly(t))
  }

  /**
    Once HEAD has left the base and no controller that saw it there is still on
    its way, integration commits no more, whatever outsiders do to the worktree;
    only the older path, which looks at nothing, could.
   */
  lemma {:induction false} LaterIntegrationsNeverCommit(w: World, t: Ticket, n: nat, events: seq<Event>)
    requires Late(w, t, n) && NoDirectPath(events, t)
    ensures Late(After(w, events), t, n)
    decreases |events|
  {
    if events != [] {
      hide Late, Happen;
      var front, e := events[..|events| - 1], events[|events| - 1];
      LaterIntegrationsNeverCommit(w, t, n, front);
      var v := After(w, front);
      if e.Continue? {
        CommandStaysLate(v, t, n, e.i);
      } else if Touches(e, t) {
        TouchStaysLate(v, t, n, e);
      } else {
        OtherEventStaysLate(v, t, n, e);
      }
    }
  }
}
