/**
  What every run of the integration protocol keeps: heads only ever move to
  strict descendants, integration installs nothing but the accepted candidate
  on its frozen base, and a candidate gets one commit however often it is
  replayed.
 */
module IntegrationSafety {
  import opened Options
  import opened CommitGraph
  import opened IntegrationHead

  type Candidates = map<Ticket, Candidate>
  type Lineages = map<Ticket, seq<Sha>>

  ghost predicate Chain(store: Store, h: seq<Sha>) {
    && (forall i :: 0 <= i < |h| ==> h[i] < |store|)
    && (forall i, j :: 0 <= i < j < |h| ==> StrictAncestor(store, h[i], h[j]))
  }

  ghost predicate HeadOk(store: Store, head: Sha, h: seq<Sha>) {
    h != [] && head == h[|h| - 1] && Chain(store, h)
  }

  ghost predicate HeadsOk(store: Store, heads: map<TrancheId, Sha>, history: map<TrancheId, seq<Sha>>) {
    && heads.Keys == history.Keys
    && forall r :: r in heads ==> HeadOk(store, heads[r], history[r])
  }

  predicate SitsOn(store: Store, sha: Sha, parent: Sha) {
    sha < |store| && store[sha].parents != [] && store[sha].parents[0] == parent
  }

  /** The successive HEADs of a worktree: each was committed on top of the one before it. */
  ghost predicate Lineage(store: Store, base: Sha, l: seq<Sha>) {
    && l != [] && l[0] == base
    && (forall k :: 0 <= k < |l| ==> l[k] < |store|)
    && (forall j, k :: 0 <= j < k < |l| && k == j + 1 ==> SitsOn(store, l[k], l[j]))
  }

  ghost predicate TicketOk(store: Store, c: Candidate, wt: Worktree, l: seq<Sha>) {
    Lineage(store, c.base, l) && wt.head == l[|l| - 1]
  }

  ghost predicate TicketsOk(store: Store, cs: Candidates, wts: map<Ticket, Worktree>, ls: Lineages) {
    && cs.Keys == wts.Keys == ls.Keys
    && forall t :: t in cs ==> TicketOk(store, cs[t], wts[t], ls[t])
  }

  /** The commit was once HEAD of the ticket's worktree. */
  predicate WasHead(cs: Candidates, ls: Lineages, t: Ticket, sha: Sha) {
    t in cs && t in ls && sha in ls[t]
  }

  /** It was, and it is the accepted candidate. */
  predicate ExactHead(store: Store, cs: Candidates, ls: Lineages, t: Ticket, sha: Sha) {
    WasHead(cs, ls, t, sha) && Exact(store, cs[t], sha)
  }

  /** What the fast-forward path has checked: a strict descendant of the base with the accepted diff. */
  ghost predicate ForwardExact(store: Store, c: Candidate, accepted: Sha) {
    && accepted < |store| && c.base < |store|
    && StrictAncestor(store, c.base, accepted)
    && DiffOf(store[c.base].tree, store[accepted].tree) == c.fingerprint
  }

  ghost predicate ProcOk(store: Store, cs: Candidates, ls: Lineages, p: Proc) {
    match p
    case Resolving(_, planning) => planning < |store|
    case Creating(_, planning) => planning < |store|
    case HeadSeen(t, live) => WasHead(cs, ls, t, live)
    case Recovering(t, live) => WasHead(cs, ls, t, live)
    case NamingHead(t, _) => t in ls && |ls[t]| >= 2
    case Verifying(t, sha) => WasHead(cs, ls, t, sha)
    case DirectAdvance(t, sha) => WasHead(cs, ls, t, sha) && sha != cs[t].base
    case ReadingHead(t, sha) => ExactHead(store, cs, ls, t, sha)
    case Advancing(t, sha) => ExactHead(store, cs, ls, t, sha)
    case Confirming(t, sha) => ExactHead(store, cs, ls, t, sha)
    case ForwardAdvancing(t, accepted) => t in cs && ForwardExact(store, cs[t], accepted)
    case _ => true
  }

  ghost predicate MoveOk(store: Store, cs: Candidates, ls: Lineages, m: Move) {
    match m.cause
    case Integration(t) =>
      && ExactHead(store, cs, ls, t, m.to)
      && cs[t].tranche == Some(m.tranche) && m.from == Some(cs[t].base)
    case Forwarding(t) =>
      && t in cs && ForwardExact(store, cs[t], m.to)
      && cs[t].tranche == Some(m.tranche) && m.from == Some(cs[t].base)
    case _ => true
  }

  ghost predicate MovesOk(store: Store, cs: Candidates, ls: Lineages, moves: seq<Move>) {
    forall i :: 0 <= i < |moves| ==> MoveOk(store, cs, ls, moves[i])
  }

  ghost predicate ReturnedOk(store: Store, cs: Candidates, ls: Lineages, returned: set<(Ticket, Sha)>) {
    forall x :: x in returned ==> ExactHead(store, cs, ls, x.0, x.1)
  }

  ghost predicate ProcsOk(store: Store, cs: Candidates, ls: Lineages, procs: map<nat, Proc>) {
    forall i :: i in procs ==> ProcOk(store, cs, ls, procs[i])
  }

  ghost predicate Inv(w: World) {
    && WellFormed(w.store)
    && HeadsOk(w.store, w.heads, w.history)
    && TicketsOk(w.store, w.candidates, w.worktrees, w.lineage)
    && MovesOk(w.store, w.candidates, w.lineage, w.moves)
    && ReturnedOk(w.store, w.candidates, w.lineage, w.returned)
    && ProcsOk(w.store, w.candidates, w.lineage, w.procs)
  }

  // ----- Time only adds -----

  ghost predicate Grows(store: Store, more: Store, cs: Candidates, cs': Candidates, ls: Lineages, ls': Lineages) {
    && store <= more
    && (forall t :: t in cs ==> t in cs' && cs'[t] == cs[t])
    && (forall t :: t in ls ==> t in ls' && ls[t] <= ls'[t])
  }

  lemma HeadsStable(store: Store, more: Store, heads: map<TrancheId, Sha>, history: map<TrancheId, seq<Sha>>)
    requires store <= more && HeadsOk(store, heads, history)
    ensures HeadsOk(more, heads, history)
  {
    forall r | r in heads ensures HeadOk(more, heads[r], history[r]) {
      var h := history[r];
      assert HeadOk(store, heads[r], h);
      forall i, j | 0 <= i < j < |h| ensures StrictAncestor(more, h[i], h[j]) {
        AncestorStable(store, more, h[i], h[j]);
      }
    }
  }

  lemma ExactHeadStable(store: Store, more: Store, cs: Candidates, cs': Candidates, ls: Lineages, ls': Lineages, t: Ticket, sha: Sha)
    requires Grows(store, more, cs, cs', ls, ls')
    requires ExactHead(store, cs, ls, t, sha)
    ensures ExactHead(more, cs', ls', t, sha)
  {
  }

  lemma ForwardExactStable(store: Store, more: Store, c: Candidate, accepted: Sha)
    requires store <= more && ForwardExact(store, c, accepted)
    ensures ForwardExact(more, c, accepted)
  {
    AncestorStable(store, more, c.base, accepted);
  }

  lemma ProcStable(store: Store, more: Store, cs: Candidates, cs': Candidates, ls: Lineages, ls': Lineages, p: Proc)
    requires Grows(store, more, cs, cs', ls, ls') && ProcOk(store, cs, ls, p)
    ensures ProcOk(more, cs', ls', p)
  {
    match p
    case ForwardAdvancing(t, accepted) => ForwardExactStable(store, more, cs[t], accepted);
    case _ =>
  }

  lemma RecordsStable(store: Store, more: Store, cs: Candidates, cs': Candidates, ls: Lineages, ls': Lineages,
                      moves: seq<Move>, returned: set<(Ticket, Sha)>, procs: map<nat, Proc>)
    requires Grows(store, more, cs, cs', ls, ls')
    requires MovesOk(store, cs, ls, moves) && ReturnedOk(store, cs, ls, returned) && ProcsOk(store, cs, ls, procs)
    ensures MovesOk(more, cs', ls', moves) && ReturnedOk(more, cs', ls', returned) && ProcsOk(more, cs', ls', procs)
  {
    forall i | 0 <= i < |moves| ensures MoveOk(more, cs', ls', moves[i]) {
      assert MoveOk(store, cs, ls, moves[i]);
      match moves[i].cause
      case Forwarding(t) => ForwardExactStable(store, more, cs[t], moves[i].to);
      case Integration(t) => ExactHeadStable(store, more, cs, cs', ls, ls', t, moves[i].to);
      case _ =>
    }
    forall x | x in returned ensures ExactHead(more, cs', ls', x.0, x.1) {
      ExactHeadStable(store, more, cs, cs', ls, ls', x.0, x.1);
    }
    forall i | i in procs ensures ProcOk(more, cs', ls', procs[i]) {
      ProcStable(store, more, cs, cs', ls, ls', procs[i]);
    }
  }

  // ----- Worktrees -----

  lemma {:induction false} LineageClimbs(store: Store, base: Sha, l: seq<Sha>, i: nat, j: nat)
    requires WellFormed(store) && Lineage(store, base, l) && i < j < |l|
    ensures StrictAncestor(store, l[i], l[j])
    decreases j
  {
    assert SitsOn(store, l[j], l[j - 1]);
    ParentIsAncestor(store, l[j - 1], l[j]);
    if i < j - 1 {
      LineageClimbs(store, base, l, i, j - 1);
      StrictThenAncestor(store, l[i], l[j - 1], l[j]);
    }
  }

  /** Only the first commit of a worktree can sit directly on its base. */
  lemma OnlyFirstSitsOnBase(store: Store, c: Candidate, l: seq<Sha>, sha: Sha)
    requires WellFormed(store) && Lineage(store, c.base, l) && sha in l && Exact(store, c, sha)
    ensures |l| >= 2 && sha == l[1] && StrictAncestor(store, c.base, sha)
  {
    var k :| 0 <= k < |l| && l[k] == sha;
    assert store[sha].parents[0] in store[sha].parents;
    ParentIsAncestor(store, c.base, sha);
    if k > 1 {
      assert SitsOn(store, l[k], l[k - 1]);
      LineageClimbs(store, c.base, l, 0, k - 1);
    }
  }

  lemma HeadsAboveBase(store: Store, c: Candidate, l: seq<Sha>, sha: Sha)
    requires WellFormed(store) && Lineage(store, c.base, l) && sha in l && sha != c.base
    ensures sha < |store| && StrictAncestor(store, c.base, sha)
  {
    var k :| 0 <= k < |l| && l[k] == sha;
    LineageClimbs(store, c.base, l, 0, k);
  }

  // ----- The effects -----

  /** One head with its history, moved to a strict descendant. */
  lemma HeadMoves(store: Store, head: Sha, h: seq<Sha>, to: Sha)
    requires HeadOk(store, head, h) && to < |store| && StrictAncestor(store, head, to)
    ensures HeadOk(store, to, h + [to])
  {
    hide Ancestor;
    forall i | 0 <= i < |h| ensures StrictAncestor(store, h[i], to) {
      if i < |h| - 1 {
        StrictThenAncestor(store, h[i], h[|h| - 1], to);
      }
    }
  }

  lemma MoveHeads(store: Store, heads: map<TrancheId, Sha>, history: map<TrancheId, seq<Sha>>, r: TrancheId, to: Sha)
    requires HeadsOk(store, heads, history) && to < |store|
    requires r in heads ==> StrictAncestor(store, heads[r], to)
    ensures HeadsOk(store, heads[r := to], history[r := (if r in history then history[r] else []) + [to]])
  {
    assert HeadOk(store, to, [] + [to]);
    hide HeadOk, StrictAncestor;
    if r in heads {
      HeadMoves(store, heads[r], history[r], to);
    }
  }

  lemma MoveRecorded(store: Store, cs: Candidates, ls: Lineages, moves: seq<Move>, m: Move)
    requires MovesOk(store, cs, ls, moves) && MoveOk(store, cs, ls, m)
    ensures MovesOk(store, cs, ls, moves + [m])
  {
  }

  lemma MoveHeadKeeps(w: World, r: TrancheId, to: Sha, cause: Cause)
    requires Inv(w) && to < |w.store|
    requires r in w.heads ==> StrictAncestor(w.store, w.heads[r], to)
    requires MoveOk(w.store, w.candidates, w.lineage, Move(r, if r in w.heads then Some(w.heads[r]) else None, to, cause))
    ensures Inv(MoveHead(w, r, to, cause))
  {
    hide HeadsOk, TicketsOk, MovesOk, ReturnedOk, ProcsOk;
    MoveHeads(w.store, w.heads, w.history, r, to);
    MoveRecorded(w.store, w.candidates, w.lineage, w.moves, Move(r, if r in w.heads then Some(w.heads[r]) else None, to, cause));
  }

  lemma LineageGrows(store: Store, base: Sha, l: seq<Sha>, commit: Commit)
    requires Lineage(store, base, l)
    requires commit.parents != [] && commit.parents[0] == l[|l| - 1]
    ensures Lineage(store + [commit], base, l + [|store|])
  {
    var more, l' := store + [commit], l + [|store|];
    forall j, k | 0 <= j < k < |l'| && k == j + 1 ensures SitsOn(more, l'[k], l'[j]) {
      if k < |l| {
        assert SitsOn(store, l[k], l[j]);
      }
    }
  }

  lemma ReplaceTicket(store: Store, cs: Candidates, wts: map<Ticket, Worktree>, ls: Lineages, t: Ticket, wt: Worktree, l: seq<Sha>)
    requires TicketsOk(store, cs, wts, ls) && t in cs && TicketOk(store, cs[t], wt, l)
    ensures TicketsOk(store, cs, wts[t := wt], ls[t := l])
  {
    hide TicketOk;
  }

  lemma CommitTickets(store: Store, cs: Candidates, wts: map<Ticket, Worktree>, ls: Lineages, t: Ticket, commit: Commit)
    requires TicketsOk(store, cs, wts, ls) && t in cs && t in wts && t in ls
    requires commit.parents != [] && commit.parents[0] == wts[t].head
    ensures TicketsOk(store + [commit], cs, wts[t := wts[t].(head := |store|)], ls[t := ls[t] + [|store|]])
  {
    hide TicketsOk;
    TicketIsOk(store, cs, wts, ls, t);
    SameTickets(store, cs, wts, ls);
    LineageGrows(store, cs[t].base, ls[t], commit);
    TicketsStable(store, store + [commit], cs, wts, ls);
    ReplaceTicket(store + [commit], cs, wts, ls, t, wts[t].(head := |store|), ls[t] + [|store|]);
  }

  lemma AppendWellFormed(store: Store, commit: Commit)
    requires WellFormed(store) && ParentsExist(store, commit.parents)
    ensures WellFormed(store + [commit])
  {
  }

  lemma CommitInKeeps(w: World, t: Ticket, merged: seq<Sha>, tree: Tree, message: string)
    requires Inv(w) && Known(w, t) && ParentsExist(w.store, merged)
    ensures Inv(CommitIn(w, t, merged, tree, message))
    ensures |CommitIn(w, t, merged, tree, message).lineage[t]| >= 2
  {
    hide HeadsOk, TicketsOk, MovesOk, ReturnedOk, ProcsOk;
    var w' := CommitIn(w, t, merged, tree, message);
    var commit := Commit([w.worktrees[t].head] + merged, tree, message);
    TicketIsOk(w.store, w.candidates, w.worktrees, w.lineage, t);
    AppendWellFormed(w.store, commit);
    CommitTickets(w.store, w.candidates, w.worktrees, w.lineage, t, commit);
    HeadsStable(w.store, w'.store, w.heads, w.history);
    RecordsStable(w.store, w'.store, w.candidates, w'.candidates, w.lineage, w'.lineage, w.moves, w.returned, w.procs);
  }

  lemma IndexKeeps(w: World, wts: map<Ticket, Worktree>)
    requires Inv(w)
    requires wts.Keys == w.worktrees.Keys && forall t :: t in wts ==> wts[t].head == w.worktrees[t].head
    ensures TicketsOk(w.store, w.candidates, wts, w.lineage)
  {
    forall t | t in w.candidates ensures TicketOk(w.store, w.candidates[t], wts[t], w.lineage[t]) {
      assert TicketOk(w.store, w.candidates[t], w.worktrees[t], w.lineage[t]);
    }
  }

  // ----- Every command -----

  ghost predicate StepKeeps(w: World, r: (World, Proc)) {
    && Inv(r.0)
    && r.0.procs == w.procs
    && ProcOk(r.0.store, r.0.candidates, r.0.lineage, r.1)
  }

  /** The commands of integration and execution that write. */
  predicate Writes(p: Proc) {
    p.Staging? || p.Committing? || p.Intending? || p.Advancing? || p.DirectAdvance? || p.Confirming? || p.Verifying?
  }

  lemma ForwardKeeps(w: World, p: Proc)
    requires Inv(w) && ProcOk(w.store, w.candidates, w.lineage, p) && Forwards(p)
    ensures StepKeeps(w, Forward(w, p))
  {
    hide HeadsOk, TicketsOk, MovesOk, ReturnedOk, ProcsOk;
    var t, accepted := p.ticket, p.accepted;
    if !p.ForwardAdvancing? {
      ForwardReads(w, p);
    } else if Known(w, t) && CasMatches(w, w.candidates[t]) {
      ForwardAdvanceKeeps(w, t, accepted);
    }
  }

  lemma ForwardAdvanceKeeps(w: World, t: Ticket, accepted: Sha)
    requires Inv(w) && CasMatchesFor(w, t) && ForwardExact(w.store, w.candidates[t], accepted)
    ensures Inv(MoveHead(w, w.candidates[t].tranche.value, accepted, Forwarding(t)))
  {
    hide HeadsOk, TicketsOk, MovesOk, ReturnedOk, ProcsOk;
    MoveHeadKeeps(w, w.candidates[t].tranche.value, accepted, Forwarding(t));
  }

  lemma ForwardReads(w: World, p: Proc)
    requires p.ForwardReading? || p.ForwardChecking?
    ensures Forward(w, p).0 == w
    ensures ProcOk(w.store, w.candidates, w.lineage, Forward(w, p).1)
  {
    var (_, p') := Forward(w, p);
    if p'.ForwardAdvancing? {
      var base := w.store[w.candidates[p.ticket].base].tree;
      assert DiffOf(base, base).Keys == {};
    }
  }

  lemma ReadsOnly(w: World, p: Proc)
    requires !Resolves(p) && Known(w, p.ticket) && !Writes(p)
    ensures Integrate(w, p).0 == w
  {
  }

  lemma ReadLeadsOn(w: World, p: Proc)
    requires !Resolves(p) && Known(w, p.ticket) && !Writes(p)
    requires WellFormed(w.store) && ProcOk(w.store, w.candidates, w.lineage, p)
    requires TicketOk(w.store, w.candidates[p.ticket], w.worktrees[p.ticket], w.lineage[p.ticket])
    ensures ProcOk(w.store, w.candidates, w.lineage, Integrate(w, p).1)
  {
    var l := w.lineage[p.ticket];
    if p.NamingHead? {
      LineageClimbs(w.store, w.candidates[p.ticket].base, l, 0, |l| - 1);
    }
  }

  lemma TicketIsOk(store: Store, cs: Candidates, wts: map<Ticket, Worktree>, ls: Lineages, t: Ticket)
    requires TicketsOk(store, cs, wts, ls) && t in cs
    ensures TicketOk(store, cs[t], wts[t], ls[t])
  {
  }

  lemma ReadKeeps(w: World, p: Proc)
    requires Inv(w) && ProcOk(w.store, w.candidates, w.lineage, p)
    requires !Resolves(p) && Known(w, p.ticket) && !Writes(p)
    ensures StepKeeps(w, Integrate(w, p))
  {
    hide HeadsOk, TicketsOk, MovesOk, ReturnedOk, ProcsOk;
    assert TicketOk(w.store, w.candidates[p.ticket], w.worktrees[p.ticket], w.lineage[p.ticket]) by {
      TicketIsOk(w.store, w.candidates, w.worktrees, w.lineage, p.ticket);
    }
    ReadsOnly(w, p);
    ReadLeadsOn(w, p);
  }

  lemma AdvanceKeeps(w: World, t: Ticket, sha: Sha, cause: Cause)
    requires Inv(w) && CasMatchesFor(w, t) && t in w.worktrees && t in w.lineage
    requires match cause
      case Integration(u) => u == t && ExactHead(w.store, w.candidates, w.lineage, t, sha)
      case DirectExecution => WasHead(w.candidates, w.lineage, t, sha) && sha != w.candidates[t].base
      case _ => false
    ensures Inv(MoveHead(w, w.candidates[t].tranche.value, sha, cause))
  {
    hide HeadsOk, TicketsOk, MovesOk, ReturnedOk, ProcsOk;
    TicketIsOk(w.store, w.candidates, w.worktrees, w.lineage, t);
    var c, l := w.candidates[t], w.lineage[t];
    if cause.Integration? {
      OnlyFirstSitsOnBase(w.store, c, l, sha);
    } else {
      HeadsAboveBase(w.store, c, l, sha);
    }
    MoveHeadKeeps(w, c.tranche.value, sha, cause);
  }

  predicate CasMatchesFor(w: World, t: Ticket) {
    t in w.candidates && CasMatches(w, w.candidates[t])
  }

  lemma StageKeeps(w: World, p: Proc)
    requires Inv(w) && p.Staging? && Known(w, p.ticket)
    ensures StepKeeps(w, Integrate(w, p))
  {
    hide HeadsOk, TicketsOk, MovesOk, ReturnedOk, ProcsOk;
    var wt := w.worktrees[p.ticket];
    IndexKeeps(w, w.worktrees[p.ticket := wt.(index := wt.files)]);
  }

  lemma CommitKeeps(w: World, p: Proc)
    requires Inv(w) && p.Committing? && Known(w, p.ticket)
    ensures StepKeeps(w, Integrate(w, p))
  {
    hide HeadsOk, TicketsOk, MovesOk, ReturnedOk, ProcsOk;
    var t := p.ticket;
    var index := w.worktrees[t].index;
    if index != HeadTree(w, t) {
      CommitInKeeps(w, t, [], index, w.candidates[t].message);
    }
  }

  lemma IntendKeeps(w: World, p: Proc)
    requires Inv(w) && p.Intending? && Known(w, p.ticket)
    ensures StepKeeps(w, Integrate(w, p))
  {
    hide HeadsOk, TicketsOk, MovesOk, ReturnedOk, ProcsOk;
  }

  lemma ReturnKeeps(w: World, t: Ticket, sha: Sha)
    requires Inv(w) && ExactHead(w.store, w.candidates, w.lineage, t, sha)
    ensures StepKeeps(w, Return(w, t, sha))
  {
  }

  lemma AnswerKeeps(w: World, p: Proc)
    requires Inv(w) && (p.Confirming? || p.Verifying?) && Known(w, p.ticket)
    requires ProcOk(w.store, w.candidates, w.lineage, p)
    ensures StepKeeps(w, Integrate(w, p))
  {
    hide HeadsOk, TicketsOk, MovesOk, ReturnedOk, ProcsOk;
    if Integrate(w, p).1.Integrated? {
      ReturnKeeps(w, p.ticket, p.commit);
      assert Integrate(w, p) == Return(w, p.ticket, p.commit);
    } else {
      assert Integrate(w, p).0 == w;
    }
  }

  lemma IntegrateKeeps(w: World, p: Proc)
    requires Inv(w) && ProcOk(w.store, w.candidates, w.lineage, p)
    requires !Resolves(p) && Known(w, p.ticket)
    ensures StepKeeps(w, Integrate(w, p))
  {
    hide HeadsOk, TicketsOk, MovesOk, ReturnedOk, ProcsOk;
    if !Writes(p) {
      ReadKeeps(w, p);
    } else if p.Advancing? {
      if CasMatchesFor(w, p.ticket) {
        AdvanceKeeps(w, p.ticket, p.commit, Integration(p.ticket));
      }
    } else if p.DirectAdvance? {
      if CasMatchesFor(w, p.ticket) {
        AdvanceKeeps(w, p.ticket, p.commit, DirectExecution);
      }
    } else if p.Staging? {
      StageKeeps(w, p);
    } else if p.Committing? {
      CommitKeeps(w, p);
    } else if p.Intending? {
      IntendKeeps(w, p);
    } else {
      AnswerKeeps(w, p);
    }
  }

  lemma ResolveKeeps(w: World, p: Proc)
    requires Inv(w) && ProcOk(w.store, w.candidates, w.lineage, p) && Resolves(p)
    ensures StepKeeps(w, ResolveBase(w, p))
  {
    if p.Creating? && p.tranche !in w.heads {
      MoveHeadKeeps(w, p.tranche, p.planning, Anchoring);
    } else {
      assert ResolveBase(w, p).0 == w;
    }
  }

  lemma CommandKeeps(w: World, p: Proc)
    requires Inv(w) && ProcOk(w.store, w.candidates, w.lineage, p)
    ensures StepKeeps(w, Command(w, p))
  {
    hide HeadsOk, TicketsOk, MovesOk, ReturnedOk, ProcsOk;
    if Forwards(p) {
      ForwardKeeps(w, p);
    } else if Resolves(p) {
      ResolveKeeps(w, p);
    } else if Known(w, p.ticket) {
      IntegrateKeeps(w, p);
    }
  }

  // ----- Every event, every run -----

  lemma ProcRecorded(store: Store, cs: Candidates, ls: Lineages, procs: map<nat, Proc>, i: nat, p: Proc)
    requires ProcsOk(store, cs, ls, procs) && ProcOk(store, cs, ls, p)
    ensures ProcsOk(store, cs, ls, procs[i := p])
  {
  }

  lemma ProcIsOk(w: World, i: nat)
    requires Inv(w)
    ensures ProcOk(w.store, w.candidates, w.lineage, ProcOf(w, i))
  {
  }

  lemma AdmitTickets(store: Store, cs: Candidates, wts: map<Ticket, Worktree>, ls: Lineages, t: Ticket, c: Candidate, wt: Worktree)
    requires TicketsOk(store, cs, wts, ls) && t !in cs && c.base < |store| && wt.head == c.base
    ensures TicketsOk(store, cs[t := c], wts[t := wt], ls[t := [c.base]])
  {
    var cs', wts', ls' := cs[t := c], wts[t := wt], ls[t := [c.base]];
    forall u | u in cs' ensures TicketOk(store, cs'[u], wts'[u], ls'[u]) {
      if u != t {
        assert TicketOk(store, cs[u], wts[u], ls[u]);
      }
    }
  }

  lemma AdmitKeeps(w: World, t: Ticket, c: Candidate, files: Tree)
    requires Inv(w)
    ensures Inv(Happen(w, Admit(t, c, files)))
  {
    hide HeadsOk, TicketsOk, MovesOk, ReturnedOk, ProcsOk;
    if t !in w.candidates && c.base < |w.store| {
      var w' := Happen(w, Admit(t, c, files));
      AdmitTickets(w.store, w.candidates, w.worktrees, w.lineage, t, c, Worktree(c.base, w.store[c.base].tree, files));
      assert t !in w.lineage by {
        SameTickets(w.store, w.candidates, w.worktrees, w.lineage);
      }
      RecordsStable(w.store, w'.store, w.candidates, w'.candidates, w.lineage, w'.lineage, w.moves, w.returned, w.procs);
    }
  }

  lemma SameTickets(store: Store, cs: Candidates, wts: map<Ticket, Worktree>, ls: Lineages)
    requires TicketsOk(store, cs, wts, ls)
    ensures cs.Keys == wts.Keys == ls.Keys
  {
  }

  lemma TicketsStable(store: Store, more: Store, cs: Candidates, wts: map<Ticket, Worktree>, ls: Lineages)
    requires store <= more && TicketsOk(store, cs, wts, ls)
    ensures TicketsOk(more, cs, wts, ls)
  {
    forall t | t in cs ensures TicketOk(more, cs[t], wts[t], ls[t]) {
      var l := ls[t];
      assert TicketOk(store, cs[t], wts[t], l);
      forall j, k | 0 <= j < k < |l| && k == j + 1 ensures SitsOn(more, l[k], l[j]) {
        assert SitsOn(store, l[k], l[j]);
      }
    }
  }

  lemma ElsewhereKeeps(w: World, commit: Commit)
    requires Inv(w) && ParentsExist(w.store, commit.parents)
    ensures Inv(w.(store := w.store + [commit]))
  {
    hide HeadsOk, TicketsOk, MovesOk, ReturnedOk, ProcsOk;
    var more := w.store + [commit];
    AppendWellFormed(w.store, commit);
    HeadsStable(w.store, more, w.heads, w.history);
    TicketsStable(w.store, more, w.candidates, w.worktrees, w.lineage);
    RecordsStable(w.store, more, w.candidates, w.candidates, w.lineage, w.lineage, w.moves, w.returned, w.procs);
  }

  lemma HappenKeeps(w: World, e: Event)
    requires Inv(w)
    ensures Inv(Happen(w, e))
  {
    hide HeadsOk, TicketsOk, MovesOk, ReturnedOk, ProcsOk;
    match e
    case Begin(i, op) =>
      ProcRecorded(w.store, w.candidates, w.lineage, w.procs, i, FirstCommand(w, op));
    case Continue(i) =>
      ProcIsOk(w, i);
      CommandKeeps(w, ProcOf(w, i));
      var (w', p') := Command(w, ProcOf(w, i));
      ProcRecorded(w'.store, w'.candidates, w'.lineage, w'.procs, i, p');
    case Crash(i) =>
      ProcRecorded(w.store, w.candidates, w.lineage, w.procs, i, Idle);
    case Admit(t, c, files) =>
      AdmitKeeps(w, t, c, files);
    case Edit(t, index, files) =>
      if Known(w, t) {
        IndexKeeps(w, w.worktrees[t := w.worktrees[t].(index := index, files := files)]);
      }
    case CommitByOthers(t, merged, tree, message) =>
      if Known(w, t) && ParentsExist(w.store, merged) {
        CommitInKeeps(w, t, merged, tree, message);
      }
    case CommitElsewhere(commit) =>
      if ParentsExist(w.store, commit.parents) {
        ElsewhereKeeps(w, commit);
      }
    case Complete(t) =>
  }

  lemma {:induction false} AfterKeeps(w: World, events: seq<Event>)
    requires Inv(w)
    ensures Inv(After(w, events))
    decreases |events|
  {
    if events != [] {
      AfterKeeps(w, events[..|events| - 1]);
      HappenKeeps(After(w, events[..|events| - 1]), events[|events| - 1]);
    }
  }

  lemma ReachableKeeps(w: World)
    requires Reachable(w)
    ensures Inv(w)
  {
    var start, events :| Initial(start) && w == After(start, events);
    AfterKeeps(start, events);
  }

  // ----- The theorems -----

  /** Every value a head has ever had is an ancestor of its value now, and no value comes back. */
  lemma HeadsNeverComeBack(w: World, r: TrancheId, i: nat, j: nat)
    requires Reachable(w) && r in w.history && i < j < |w.history[r]|
    ensures StrictAncestor(w.store, w.history[r][i], w.history[r][j])
    ensures w.history[r][i] < w.history[r][j]
    ensures r in w.heads && w.heads[r] == w.history[r][|w.history[r]| - 1]
    ensures Ancestor(w.store, w.history[r][i], w.heads[r])
  {
    ReachableKeeps(w);
    assert HeadOk(w.store, w.heads[r], w.history[r]);
    AncestorIsOlder(w.store, w.history[r][i], w.history[r][j]);
  }

  lemma IntegrateLeavesHistory(w: World, p: Proc)
    requires !Resolves(p) && Known(w, p.ticket) && !p.Advancing? && !p.DirectAdvance?
    ensures Integrate(w, p).0.history == w.history
  {
    hide Exact, StatusPaths, Ancestor, DiffOf, Restrict, HeadTree, ExistingBase, CasMatches, MoveHead;
  }

  lemma IntegrateExtendsHistory(w: World, p: Proc, r: TrancheId)
    requires r in w.history && !Resolves(p) && Known(w, p.ticket)
    ensures r in Integrate(w, p).0.history && w.history[r] <= Integrate(w, p).0.history[r]
  {
    hide Exact, StatusPaths, Ancestor, DiffOf, Restrict, HeadTree, ExistingBase, Known, CommitIn, Return;
    if !p.Advancing? && !p.DirectAdvance? {
      hide Integrate;
      IntegrateLeavesHistory(w, p);
    }
  }

  lemma OthersExtendHistory(w: World, p: Proc, r: TrancheId)
    requires r in w.history
    ensures Resolves(p) ==> r in ResolveBase(w, p).0.history && w.history[r] <= ResolveBase(w, p).0.history[r]
    ensures Forwards(p) ==> r in Forward(w, p).0.history && w.history[r] <= Forward(w, p).0.history[r]
  {
    hide LinearFrom, DiffOf;
  }

  lemma CommandExtendsHistory(w: World, p: Proc, r: TrancheId)
    requires r in w.history
    ensures r in Command(w, p).0.history && w.history[r] <= Command(w, p).0.history[r]
  {
    OthersExtendHistory(w, p, r);
    if !Resolves(p) && !Forwards(p) && Known(w, p.ticket) {
      IntegrateExtendsHistory(w, p, r);
    }
    hide Integrate, ResolveBase, Forward, Known;
  }

  lemma HistoryGrows(w: World, e: Event, r: TrancheId)
    requires r in w.history
    ensures r in Happen(w, e).history && w.history[r] <= Happen(w, e).history[r]
  {
    if e.Continue? {
      CommandExtendsHistory(w, ProcOf(w, e.i), r);
    }
  }

  /** Whatever happens next, a head that is anchored stays where it is or moves to a strict descendant. */
  lemma HeadMovesToDescendants(w: World, e: Event, r: TrancheId)
    requires Reachable(w) && r in w.heads
    ensures var w' := Happen(w, e);
      r in w'.heads && (w'.heads[r] == w.heads[r] || StrictAncestor(w'.store, w.heads[r], w'.heads[r]))
  {
    hide TicketsOk, MovesOk, ReturnedOk, ProcsOk, Happen;
    ReachableKeeps(w);
    HappenKeeps(w, e);
    HistoryGrows(w, e, r);
    var w' := Happen(w, e);
    assert HeadOk(w.store, w.heads[r], w.history[r]);
    assert HeadOk(w'.store, w'.heads[r], w'.history[r]);
    var h, h' := w.history[r], w'.history[r];
    assert h[|h| - 1] == h'[|h| - 1];
  }

  /**
    Integration installs nothing but the accepted candidate, and only over the
    frozen base: right parent, right tree, right message, right paths.
   */
  lemma IntegrationInstallsTheCandidate(w: World, m: Move)
    requires Reachable(w) && m in w.moves && m.cause.Integration?
    ensures m.cause.ticket in w.candidates
    ensures var c := w.candidates[m.cause.ticket];
      && c.tranche == Some(m.tranche) && m.from == Some(c.base) && m.to < |w.store| && c.base < |w.store|
      && w.store[m.to].parents != [] && w.store[m.to].parents[0] == c.base
      && DiffOf(w.store[c.base].tree, w.store[m.to].tree) == c.fingerprint
      && DiffOf(w.store[c.base].tree, w.store[m.to].tree).Keys <= c.authorized
      && w.store[m.to].message == c.message
      && forall accepted :: DiffOf(w.store[c.base].tree, accepted) == c.fingerprint ==> w.store[m.to].tree == accepted
  {
    ReachableKeeps(w);
    var i :| 0 <= i < |w.moves| && w.moves[i] == m;
    assert MoveOk(w.store, w.candidates, w.lineage, w.moves[i]);
    var c := w.candidates[m.cause.ticket];
    forall accepted | DiffOf(w.store[c.base].tree, accepted) == c.fingerprint ensures w.store[m.to].tree == accepted {
      DiffDetermines(w.store[c.base].tree, accepted, w.store[m.to].tree);
    }
  }

  /** What a controller has returned is on record. */
  ghost predicate OnRecord(p: Proc, returned: set<(Ticket, Sha)>) {
    p.Integrated? ==> (p.ticket, p.commit) in returned
  }

  lemma CommandRecordsReturns(w: World, p: Proc)
    requires OnRecord(p, w.returned)
    ensures var (w', p') := Command(w, p); w'.procs == w.procs && w.returned <= w'.returned && OnRecord(p', w'.returned)
  {
    hide StatusPaths, DiffOf, Exact, ExistingBase, CasMatches, HeadTree, LinearFrom, Ancestor, Integrate;
    if !Forwards(p) && !Resolves(p) && Known(w, p.ticket) {
      hide Forward, ResolveBase, Known;
      if p.Verifying? || p.Confirming? || p.Integrated? {
        ReturningRecords(w, p);
      } else {
        OtherCommandsReturnNothing(w, p);
      }
    }
  }

  lemma ReturningRecords(w: World, p: Proc)
    requires (p.Verifying? || p.Confirming? || p.Integrated?) && Known(w, p.ticket) && OnRecord(p, w.returned)
    ensures var (w', p') := Integrate(w, p); w'.procs == w.procs && w.returned <= w'.returned && OnRecord(p', w'.returned)
  {
    hide StatusPaths, Exact, ExistingBase, Known, MoveHead, CommitIn, DiffOf, Restrict, Ancestor, HeadTree, CasMatches, Return;
    if !p.Integrated? {
      ReturnRecords(w, p.ticket, p.commit);
    }
  }

  lemma ReturnRecords(w: World, t: Ticket, sha: Sha)
    ensures var (w', p') := Return(w, t, sha);
      w'.procs == w.procs && w.returned <= w'.returned && p' == Integrated(t, sha) && OnRecord(p', w'.returned)
  {
  }

  lemma OtherCommandsReturnNothing(w: World, p: Proc)
    requires !Forwards(p) && !Resolves(p) && !p.Verifying? && !p.Confirming? && !p.Integrated? && Known(w, p.ticket)
    ensures var (w', p') := Integrate(w, p); w'.procs == w.procs && w'.returned == w.returned && !p'.Integrated?
  {
    hide StatusPaths, DiffOf, Exact, ExistingBase, CasMatches, HeadTree, Ancestor, Restrict, Return;
    if p.Advancing? || p.DirectAdvance? {
      hide CommitIn;
    } else if p.Committing? {
      hide MoveHead;
    } else {
      hide CommitIn, MoveHead;
    }
  }

  ghost predicate AllOnRecord(w: World) {
    forall i :: i in w.procs ==> OnRecord(w.procs[i], w.returned)
  }

  lemma HappenRecordsReturns(w: World, e: Event)
    requires AllOnRecord(w)
    ensures AllOnRecord(Happen(w, e))
  {
    hide Command, Known, ParentsExist;
    if e.Continue? {
      CommandRecordsReturns(w, ProcOf(w, e.i));
    }
  }

  lemma {:induction false} ReturnsAreRecorded(start: World, events: seq<Event>)
    requires Initial(start)
    ensures AllOnRecord(After(start, events))
    decreases |events|
  {
    if events != [] {
      ReturnsAreRecorded(start, events[..|events| - 1]);
      HappenRecordsReturns(After(start, events[..|events| - 1]), events[|events| - 1]);
    }
    hide Happen;
  }

  /** However often integration of a ticket returns, from whatever crash, it returns one commit. */
  lemma ReplayReturnsTheSameCommit(w: World, t: Ticket, a: Sha, b: Sha)
    requires Reachable(w) && (t, a) in w.returned && (t, b) in w.returned
    ensures a == b
    ensures t in w.candidates && Exact(w.store, w.candidates[t], a)
    ensures AllOnRecord(w)
  {
    hide AllOnRecord;
    var start, events :| Initial(start) && w == After(start, events);
    ReturnsAreRecorded(start, events);
    ReachableKeeps(w);
    TicketIsOk(w.store, w.candidates, w.worktrees, w.lineage, t);
    assert ExactHead(w.store, w.candidates, w.lineage, (t, a).0, (t, a).1);
    assert ExactHead(w.store, w.candidates, w.lineage, (t, b).0, (t, b).1);
    OnlyFirstSitsOnBase(w.store, w.candidates[t], w.lineage[t], a);
    OnlyFirstSitsOnBase(w.store, w.candidates[t], w.lineage[t], b);
  }
}
