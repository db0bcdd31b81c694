/**
  What integration commits while other controllers are at work: nothing but what
  it has inspected, as long as neither an outsider nor another controller has
  changed the worktree since.
 */
module IntegrationInspection {
  import opened Options
  import opened CommitGraph
  import opened IntegrationHead
  import opened IntegrationReplay
  import opened IntegrationCommits

  /** Nobody has touched the worktree of t, and no commit has been made in it, at any moment of the run. */
  ghost predicate Untouched(w: World, t: Ticket, events: seq<Event>)
    requires Known(w, t)
    decreases |events|
  {
    events != [] ==>
      var front := events[..|events| - 1];
      && Untouched(w, t, front) && !Touches(events[|events| - 1], t)
      && t in After(w, events).created && After(w, events).created[t] == w.created[t]
  }

  /** The files a worktree may be committed with: only authorized paths differ from HEAD. */
  ghost predicate OnlyAuthorized(w: World, t: Ticket)
    requires Known(w, t)
  {
    DiffOf(HeadTree(w, t), w.worktrees[t].files).Keys <= w.candidates[t].authorized
  }

  /** And what is accepted of them is the accepted diff. */
  ghost predicate AcceptedDiff(w: World, t: Ticket)
    requires Known(w, t)
  {
    var c := w.candidates[t];
    var base := w.store[c.base].tree;
    DiffOf(base, Restrict(w.worktrees[t].files, base, c.approvedNew)) == c.fingerprint
  }

  /** What controller p, on its way to a checked commit in t, has seen to be in order, is in order. */
  ghost predicate Inspected(w: World, t: Ticket, p: Proc)
    requires Known(w, t)
  {
    var c, wt := w.candidates[t], w.worktrees[t];
    match p
    case HeadSeen(u, live) => u == t ==> live == wt.head
    case Inspecting(u) => u == t ==> wt.head == c.base
    case Fingerprinting(u) => u == t ==> wt.head == c.base && OnlyAuthorized(w, t)
    case HeadCheck(u) => u == t ==> wt.head == c.base && OnlyAuthorized(w, t) && AcceptedDiff(w, t)
    case Intending(u) => u == t ==> wt.head == c.base && OnlyAuthorized(w, t) && AcceptedDiff(w, t)
    case Staging(u, m) => u == t && m == Checked ==> wt.head == c.base && OnlyAuthorized(w, t) && AcceptedDiff(w, t)
    case Quiet(u, m) => u == t && m == Checked ==> wt.head == c.base && OnlyAuthorized(w, t) && AcceptedDiff(w, t) && wt.index == wt.files
    case Committing(u, m) => u == t && m == Checked ==> wt.head == c.base && OnlyAuthorized(w, t) && AcceptedDiff(w, t) && wt.index == wt.files
    case _ => true
  }

  /** One command of the controller itself, other than its commit. */
  lemma LooksKeepInspected(w: World, t: Ticket, p: Proc)
    requires Known(w, t) && Inspected(w, t, p) && !p.Staging? && !p.Committing?
    ensures Known(Command(w, p).0, t) && Inspected(Command(w, p).0, t, Command(w, p).1)
  {
    InspectedNext(w, t, p);
    OtherCommands(w, p, t);
    SameTicketInspected(w, Command(w, p).0, t, Command(w, p).1);
  }

  lemma SameTicketInspected(w: World, w': World, t: Ticket, p: Proc)
    requires Known(w, t) && SameTicket(w, w', t)
    ensures Inspected(w, t, p) <==> Inspected(w', t, p)
  {
    hide DiffOf, Restrict;
  }

  lemma InspectedNext(w: World, t: Ticket, p: Proc)
    requires Known(w, t) && Inspected(w, t, p) && !p.Staging? && !p.Committing?
    ensures Inspected(w, t, Command(w, p).1)
  {
    hide Integrate, Forward, ResolveBase;
    if Forwards(p) || Resolves(p) {
      RefsStayOutside(w, p);
    } else if Known(w, p.ticket) {
      if p.Started? || p.HeadSeen? || p.Inspecting? || p.Fingerprinting? {
        FirstLooks(w, t, p);
      } else {
        LastLooks(w, t, p);
      }
    }
  }

  lemma FirstLooks(w: World, t: Ticket, p: Proc)
    requires Known(w, t) && Inspected(w, t, p) && (p.Started? || p.HeadSeen? || p.Inspecting? || p.Fingerprinting?) && Known(w, p.ticket)
    ensures Inspected(w, t, Integrate(w, p).1)
  {
    hide DiffOf, Restrict, Ancestor, ExistingBase, Exact, CommitIn, MoveHead, Return, CasMatches;
  }

  lemma LastLooks(w: World, t: Ticket, p: Proc)
    requires Known(w, t) && Inspected(w, t, p) && !Resolves(p) && Known(w, p.ticket)
    requires !p.Started? && !p.HeadSeen? && !p.Inspecting? && !p.Fingerprinting? && !p.Staging? && !p.Committing?
    ensures Inspected(w, t, Integrate(w, p).1)
  {
    hide DiffOf, Restrict, Ancestor, ExistingBase, Exact, CommitIn, MoveHead, CasMatches, StatusPaths, OnlyAuthorized, AcceptedDiff;
  }

  /** Staging puts the inspected files, and nothing else, into the index. */
  lemma StagingKeepsInspected(w: World, t: Ticket, p: Proc)
    requires Known(w, t) && Inspected(w, t, p) && p.Staging? && p.ticket == t
    ensures Known(Command(w, p).0, t) && Inspected(Command(w, p).0, t, Command(w, p).1)
  {
    hide DiffOf, Restrict, StatusPaths;
  }

  // ----- The steps of others -----

  /** Whatever another controller does short of a commit, what was inspected stays as it was. */
  lemma OthersKeepInspected(w: World, t: Ticket, p: Proc, q: Proc)
    requires Known(w, t) && Inspected(w, t, p)
    requires q.Committing? && q.ticket == t && Known(w, t) ==> w.worktrees[t].index == HeadTree(w, t)
    ensures Known(Command(w, q).0, t) && Inspected(Command(w, q).0, t, p)
  {
    if q.Staging? && q.ticket == t {
      OtherStagingKeepsInspected(w, t, p, q);
    } else if q.Committing? && q.ticket == t {
      assert Command(w, q) == (w, Failed);
    } else {
      OtherCommands(w, q, t);
      SameTicketInspected(w, Command(w, q).0, t, p);
    }
    hide Command;
  }

  lemma OtherStagingKeepsInspected(w: World, t: Ticket, p: Proc, q: Proc)
    requires Known(w, t) && Inspected(w, t, p) && q.Staging? && q.ticket == t
    ensures Known(Command(w, q).0, t) && Inspected(Command(w, q).0, t, p)
  {
    hide DiffOf, Restrict, StatusPaths, Forward, ResolveBase, MoveHead, CommitIn, Exact;
    var wt := w.worktrees[t];
    assert Command(w, q).0 == w.(worktrees := w.worktrees[t := wt.(index := wt.files)]);
    hide Command;
  }

  // ----- Whole runs -----

  /** The ticket's frozen candidate and its files are as they were. */
  ghost predicate SameFiles(w: World, w': World, t: Ticket)
    requires Known(w, t)
  {
    Known(w', t) && w'.candidates[t] == w.candidates[t] && w'.worktrees[t].files == w.worktrees[t].files && w.store <= w'.store
  }

  lemma CommandKeepsFiles(w: World, t: Ticket, q: Proc)
    requires Known(w, t) && (q.Committing? && q.ticket == t ==> w.worktrees[t].index == HeadTree(w, t))
    ensures SameFiles(w, Command(w, q).0, t) && Command(w, q).0.procs == w.procs
  {
    if (q.Staging? || q.Committing?) && q.ticket == t {
      hide DiffOf, StatusPaths;
    } else {
      OtherCommands(w, q, t);
      hide Command;
    }
  }

  /** A commit in the worktree would have been counted. */
  lemma UncountedCommitsNothing(w: World, t: Ticket, j: nat)
    requires Known(w, t) && t in Happen(w, Continue(j)).created && Happen(w, Continue(j)).created[t] == w.created[t]
    requires ProcOf(w, j).Committing? && ProcOf(w, j).ticket == t
    ensures w.worktrees[t].index == HeadTree(w, t)
  {
    if w.worktrees[t].index != HeadTree(w, t) {
      CommitIsCounted(w, t, j);
    }
  }

  lemma PlacesAside(w: World, procs: map<nat, Proc>, t: Ticket, p: Proc)
    requires Known(w, t)
    ensures Known(w.(procs := procs), t) && (Inspected(w.(procs := procs), t, p) <==> Inspected(w, t, p))
  {
    hide DiffOf, Restrict;
  }

  lemma ContinueKeepsInspected(w: World, t: Ticket, i: nat, j: nat)
    requires Known(w, t) && Inspected(w, t, ProcOf(w, i))
    requires t in Happen(w, Continue(j)).created && Happen(w, Continue(j)).created[t] == w.created[t]
    ensures SameFiles(w, Happen(w, Continue(j)), t) && Inspected(Happen(w, Continue(j)), t, ProcOf(Happen(w, Continue(j)), i))
  {
    var q := ProcOf(w, j);
    if q.Committing? && q.ticket == t {
      UncountedCommitsNothing(w, t, j);
    }
    CommandKeepsFiles(w, t, q);
    if j != i {
      OthersKeepInspected(w, t, ProcOf(w, i), q);
    } else {
      OwnCommandKeepsInspected(w, t, q);
    }
    var (w', q') := Command(w, q);
    hide Command, Inspected, Known;
    PlacesAside(w', w'.procs[j := q'], t, if j == i then q' else ProcOf(w, i));
  }

  lemma OwnCommandKeepsInspected(w: World, t: Ticket, p: Proc)
    requires Known(w, t) && Inspected(w, t, p) && (p.Committing? && p.ticket == t ==> w.worktrees[t].index == HeadTree(w, t))
    ensures Known(Command(w, p).0, t) && Inspected(Command(w, p).0, t, Command(w, p).1)
  {
    if p.Staging? && p.ticket == t {
      StagingKeepsInspected(w, t, p);
    } else if p.Staging? || p.Committing? {
      CommandKeepsFiles(w, t, p);
      hide DiffOf, Restrict, StatusPaths, HeadTree;
    } else {
      LooksKeepInspected(w, t, p);
    }
  }

  lemma OtherEventKeepsInspected(w: World, t: Ticket, i: nat, e: Event)
    requires Known(w, t) && Inspected(w, t, ProcOf(w, i)) && !e.Continue? && !Touches(e, t)
    ensures SameFiles(w, Happen(w, e), t) && Inspected(Happen(w, e), t, ProcOf(Happen(w, e), i))
  {
    var w' := Happen(w, e);
    OthersLeaveTicket(w, t, e);
    SameTicketInspected(w, w', t, ProcOf(w, i));
    hide Command, CommitIn, StatusPaths, HeadTree, DiffOf, Restrict;
  }

  lemma {:induction false} RunKeepsInspected(w: World, t: Ticket, i: nat, events: seq<Event>)
    requires Known(w, t) && Inspected(w, t, ProcOf(w, i)) && Untouched(w, t, events)
    ensures SameFiles(w, After(w, events), t) && Inspected(After(w, events), t, ProcOf(After(w, events), i))
    ensures After(w, events).created[t] == w.created[t]
    decreases |events|
  {
    hide Happen, Inspected;
    if events != [] {
      var front, e := events[..|events| - 1], events[|events| - 1];
      RunKeepsInspected(w, t, i, front);
      if e.Continue? {
        ContinueKeepsInspected(After(w, front), t, i, e.i);
      } else {
        OtherEventKeepsInspected(After(w, front), t, i, e);
      }
    }
  }

  /** What the commit would be, and what of it was looked at. */
  ghost predicate CommitsAsInspected(store: Store, after: Store, c: Candidate, files: Tree) {
    && c.base < |store|
    && (after == store || after == store + [Commit([c.base], files, c.message)])
    && DiffOf(store[c.base].tree, files).Keys <= c.authorized
    && DiffOf(store[c.base].tree, Restrict(files, store[c.base].tree, c.approvedNew)) == c.fingerprint
  }

  lemma CommitNow(w: World, t: Ticket, i: nat)
    requires Known(w, t) && ProcOf(w, i) == Committing(t, Checked) && Inspected(w, t, ProcOf(w, i))
    ensures CommitsAsInspected(w.store, Happen(w, Continue(i)).store, w.candidates[t], w.worktrees[t].files)
  {
    hide DiffOf, Restrict, StatusPaths;
    var c := w.candidates[t];
    assert HeadTree(w, t) == w.store[c.base].tree;
    assert [w.worktrees[t].head] + [] == [c.base];
  }

  /**
    Any number of controllers, crashing and starting again as they like. Controller
    i starts integration of t, or is seen inspecting it at its base; from then on
    no outsider touches the worktree and nobody commits in it. If i now makes its
    checked commit, that commit sits on the base, holds the files as they were,
    changes only authorized paths, and what is accepted of it is the accepted diff.
   */
  lemma CheckedCommitIsInspected(w: World, t: Ticket, i: nat, events: seq<Event>)
    requires Known(w, t) && Inspected(w, t, ProcOf(w, i)) && Untouched(w, t, events)
    requires ProcOf(After(w, events), i) == Committing(t, Checked)
    ensures var v := After(w, events);
      CommitsAsInspected(v.store, Happen(v, Continue(i)).store, w.candidates[t], w.worktrees[t].files)
  {
    RunKeepsInspected(w, t, i, events);
    CommitNow(After(w, events), t, i);
    hide Happen, After, Untouched, Inspected, CommitsAsInspected;
  }
}
