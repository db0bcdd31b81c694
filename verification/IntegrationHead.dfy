/**
  The tranche integration head. Any number of controllers anchor it, commit
  accepted candidates in their worktrees, and advance it by compare-and-swap;
  each may die between any two commands, and worktrees may be edited or
  committed to by others meanwhile. One step is one Git or ledger command.
 */
module IntegrationHead {
  import opened Options
  import opened CommitGraph

  type Ticket = string
  type TrancheId = string

  /** The accepted candidate as frozen in the scheduler claim. */
  datatype Candidate = Candidate(
    base: Sha, fingerprint: Diff, message: string, authorized: set<Path>, approvedNew: set<Path>,
    tranche: Option<TrancheId>, startingSha: Sha)

  datatype Worktree = Worktree(head: Sha, index: Tree, files: Tree)

  datatype Intent = Intent(identity: Candidate, completed: bool)

  /** Direct is the older path that accepts and advances without the checks around it. */
  datatype Mode = Checked | Direct

  datatype Proc =
    | Idle
    | Failed
    // resolve_execution_base
    | Resolving(tranche: TrancheId, planning: Sha)
    | Creating(tranche: TrancheId, planning: Sha)
    | Rereading(tranche: TrancheId)
    | Resolved(executionBase: Sha)
    // execute_git_integration_only
    | Started(ticket: Ticket)
    | HeadSeen(ticket: Ticket, live: Sha)
    | Inspecting(ticket: Ticket)
    | Fingerprinting(ticket: Ticket)
    | HeadCheck(ticket: Ticket)
    | Intending(ticket: Ticket)
    | Staging(ticket: Ticket, mode: Mode)
    | Quiet(ticket: Ticket, mode: Mode)
    | Committing(ticket: Ticket, mode: Mode)
    | NamingHead(ticket: Ticket, mode: Mode)
    | Recovering(ticket: Ticket, live: Sha)
    | Verifying(ticket: Ticket, commit: Sha)
    | ReadingHead(ticket: Ticket, commit: Sha)
    | Advancing(ticket: Ticket, commit: Sha)
    | Confirming(ticket: Ticket, commit: Sha)
    | Integrated(ticket: Ticket, commit: Sha)
    // the last command of execute
    | DirectAdvance(ticket: Ticket, commit: Sha)
    // integrate_accepted_candidate_only
    | ForwardReading(ticket: Ticket, accepted: Sha)
    | ForwardChecking(ticket: Ticket, accepted: Sha, current: Sha)
    | ForwardAdvancing(ticket: Ticket, accepted: Sha)
    | Forwarded(ticket: Ticket, accepted: Sha)

  datatype Cause = Anchoring | Integration(ticket: Ticket) | Forwarding(ticket: Ticket) | DirectExecution

  /** One successful update-ref: the value it replaced, and the value it set. */
  datatype Move = Move(tranche: TrancheId, from: Option<Sha>, to: Sha, cause: Cause)

  /**
    The first five fields are what Git and the ledger hold; procs are the
    controllers; the rest records what has happened: every value a head has
    had, every HEAD a worktree has had, the moves, the commits made by
    controllers, the worktrees someone else has changed, and the results.
   */
  datatype World = World(
    store: Store,
    heads: map<TrancheId, Sha>,
    candidates: map<Ticket, Candidate>,
    worktrees: map<Ticket, Worktree>,
    intents: map<Ticket, Intent>,
    procs: map<nat, Proc>,
    history: map<TrancheId, seq<Sha>>,
    lineage: map<Ticket, seq<Sha>>,
    moves: seq<Move>,
    created: map<Ticket, nat>,
    touched: set<Ticket>,
    returned: set<(Ticket, Sha)>)

  // ----- Effects -----

  function MoveHead(w: World, r: TrancheId, to: Sha, cause: Cause): World {
    w.(heads := w.heads[r := to],
       history := w.history[r := (if r in w.history then w.history[r] else []) + [to]],
       moves := w.moves + [Move(r, if r in w.heads then Some(w.heads[r]) else None, to, cause)])
  }

  /** git commit in a worktree: the new commit sits on HEAD, which moves to it. */
  function CommitIn(w: World, t: Ticket, merged: seq<Sha>, tree: Tree, message: string): World
    requires t in w.worktrees && t in w.lineage
  {
    var wt := w.worktrees[t];
    var sha := |w.store|;
    w.(store := w.store + [Commit([wt.head] + merged, tree, message)],
       worktrees := w.worktrees[t := wt.(head := sha)],
       lineage := w.lineage[t := w.lineage[t] + [sha]])
  }

  // ----- Reads -----

  predicate Known(w: World, t: Ticket) {
    && t in w.candidates && t in w.worktrees && t in w.lineage && t in w.created
    && w.candidates[t].base < |w.store| && w.worktrees[t].head < |w.store|
  }

  function HeadTree(w: World, t: Ticket): Tree
    requires Known(w, t)
  {
    w.store[w.worktrees[t].head].tree
  }

  function StatusPaths(w: World, t: Ticket): set<Path>
    requires Known(w, t)
  {
    DiffOf(HeadTree(w, t), w.worktrees[t].index).Keys + DiffOf(HeadTree(w, t), w.worktrees[t].files).Keys
  }

  /** The commit is the accepted candidate: on the frozen base, with the accepted diff and message. */
  predicate Exact(store: Store, c: Candidate, sha: Sha) {
    && sha < |store| && c.base < |store|
    && store[sha].parents != [] && store[sha].parents[0] == c.base
    && DiffOf(store[c.base].tree, store[sha].tree) == c.fingerprint
    && c.fingerprint.Keys != {} && c.fingerprint.Keys <= c.authorized
    && store[sha].message == c.message
  }

  // ----- One command of one controller -----

  predicate Resolves(p: Proc) {
    p.Idle? || p.Failed? || p.Resolved? || p.Resolving? || p.Creating? || p.Rereading?
  }

  predicate Forwards(p: Proc) {
    p.ForwardReading? || p.ForwardChecking? || p.ForwardAdvancing?
  }

  ghost function Command(w: World, p: Proc): (World, Proc) {
    if Forwards(p) then Forward(w, p)
    else if Resolves(p) then ResolveBase(w, p)
    else if Known(w, p.ticket) then Integrate(w, p)
    else (w, Failed)
  }

  /** resolve_execution_base: read the anchor, else create it, else read the one somebody else created. */
  function ResolveBase(w: World, p: Proc): (World, Proc)
    requires Resolves(p)
  {
    match p
    case Resolving(r, planning) =>
      if r in w.heads then (w, Resolved(w.heads[r])) else (w, Creating(r, planning))
    case Creating(r, planning) =>
      if r in w.heads then (w, Rereading(r)) else (MoveHead(w, r, planning, Anchoring), Resolved(planning))
    case Rereading(r) =>
      if r in w.heads then (w, Resolved(w.heads[r])) else (w, Failed)
    case _ => (w, p)
  }

  /** execute_git_integration_only, and the commit-and-advance of execute. */
  ghost function Integrate(w: World, p: Proc): (World, Proc)
    requires !Resolves(p) && Known(w, p.ticket)
  {
    var t := p.ticket;
    var c := w.candidates[t];
    var wt := w.worktrees[t];
    match p
    case Started(_) => (w, HeadSeen(t, wt.head))
    case HeadSeen(_, live) =>
      if !Ancestor(w.store, c.startingSha, c.base) then (w, Failed)
      else if live == c.base then (w, Inspecting(t))
      else if t !in w.intents then (w, Failed)
      else (w, Recovering(t, live))
    case Inspecting(_) =>
      var paths := StatusPaths(w, t);
      if paths == {} || !(paths <= c.authorized) then (w, Failed) else (w, Fingerprinting(t))
    case Fingerprinting(_) =>
      var base := w.store[c.base].tree;
      if DiffOf(base, Restrict(wt.files, base, c.approvedNew)) != c.fingerprint then (w, Failed) else (w, HeadCheck(t))
    case HeadCheck(_) =>
      if ExistingBase(w, c) == Some(c.base) then (w, Intending(t)) else (w, Failed)
    case Intending(_) =>
      if t !in w.intents then (w.(intents := w.intents[t := Intent(c, false)]), Staging(t, Checked))
      else if w.intents[t].identity != c || w.intents[t].completed then (w, Failed)
      else (w, Staging(t, Checked))
    case Staging(_, mode) =>
      (w.(worktrees := w.worktrees[t := wt.(index := wt.files)]), Quiet(t, mode))
    case Quiet(_, mode) =>
      if wt.index == HeadTree(w, t) then (w, Failed) else (w, Committing(t, mode))
    case Committing(_, mode) =>
      if wt.index == HeadTree(w, t) then (w, Failed)
      else (CommitIn(w, t, [], wt.index, c.message).(created := w.created[t := w.created[t] + 1]), NamingHead(t, mode))
    case NamingHead(_, mode) =>
      (w, if mode.Checked? then Verifying(t, wt.head) else DirectAdvance(t, wt.head))
    case Recovering(_, live) =>
      if Exact(w.store, c, wt.head) && StatusPaths(w, t) == {} then (w, Verifying(t, live)) else (w, Failed)
    case Verifying(_, sha) =>
      if !Exact(w.store, c, sha) || StatusPaths(w, t) != {} then (w, Failed)
      else if c.tranche == None then Return(w, t, sha)
      else (w, ReadingHead(t, sha))
    case ReadingHead(_, sha) =>
      if ExistingBase(w, c) == Some(c.base) then (w, Advancing(t, sha))
      else if ExistingBase(w, c) == Some(sha) then (w, Confirming(t, sha))
      else (w, Failed)
    case Advancing(_, sha) =>
      if CasMatches(w, c) then (MoveHead(w, c.tranche.value, sha, Integration(t)), Confirming(t, sha)) else (w, Failed)
    case Confirming(_, sha) =>
      if ExistingBase(w, c) == Some(sha) then Return(w, t, sha) else (w, Failed)
    case DirectAdvance(_, sha) =>
      if c.tranche == None then (w, Idle)
      else if CasMatches(w, c) then (MoveHead(w, c.tranche.value, sha, DirectExecution), Idle)
      else (w, Failed)
    case _ => (w, p)
  }

  /** integrate_accepted_candidate_only: the head moves straight to the recorded commit. */
  ghost function Forward(w: World, p: Proc): (World, Proc)
    requires Forwards(p)
  {
    var t, accepted := p.ticket, p.accepted;
    if !Known(w, t) || w.candidates[t].tranche == None || accepted >= |w.store| then (w, Failed) else
    var c := w.candidates[t];
    match p
    case ForwardReading(_, _) =>
      if c.tranche.value in w.heads then (w, ForwardChecking(t, accepted, w.heads[c.tranche.value])) else (w, Failed)
    case ForwardChecking(_, _, current) =>
      var diff := DiffOf(w.store[c.base].tree, w.store[accepted].tree);
      if !LinearFrom(w.store, c.base, accepted) || diff.Keys == {} || !(diff.Keys <= c.authorized) || diff != c.fingerprint then (w, Failed)
      else if current == accepted then (w, Forwarded(t, accepted))
      else if current != c.base then (w, Failed)
      else (w, ForwardAdvancing(t, accepted))
    case ForwardAdvancing(_, _) =>
      if CasMatches(w, c) then (MoveHead(w, c.tranche.value, accepted, Forwarding(t)), Forwarded(t, accepted)) else (w, Failed)
  }

  /** existing_execution_base: without a tranche the planning base, else the head if it is anchored. */
  function ExistingBase(w: World, c: Candidate): Option<Sha> {
    if c.tranche == None then Some(c.base)
    else if c.tranche.value in w.heads then Some(w.heads[c.tranche.value])
    else None
  }

  /** update-ref with the frozen base as the expected old value. */
  predicate CasMatches(w: World, c: Candidate) {
    c.tranche.Some? && c.tranche.value in w.heads && w.heads[c.tranche.value] == c.base
  }

  function Return(w: World, t: Ticket, sha: Sha): (World, Proc) {
    (w.(returned := w.returned + {(t, sha)}), Integrated(t, sha))
  }

  // ----- Everything that can happen -----

  datatype Operation =
    | Resolve(tranche: TrancheId, planning: Sha)
    | IntegrateCandidate(ticket: Ticket)
    | ForwardCandidate(ticket: Ticket, accepted: Sha)
    | ExecuteDirectly(ticket: Ticket)

  datatype Event =
    | Begin(i: nat, op: Operation)
    | Continue(i: nat)
    | Crash(i: nat)
    | Admit(ticket: Ticket, candidate: Candidate, files: Tree)
    | Edit(ticket: Ticket, index: Tree, files: Tree)
    | CommitByOthers(ticket: Ticket, merged: seq<Sha>, tree: Tree, message: string)
    | CommitElsewhere(commit: Commit)
    | Complete(ticket: Ticket)

  function ProcOf(w: World, i: nat): Proc {
    if i in w.procs then w.procs[i] else Idle
  }

  function FirstCommand(w: World, op: Operation): Proc {
    match op
    case Resolve(r, planning) => if planning < |w.store| then Resolving(r, planning) else Failed
    case IntegrateCandidate(t) => Started(t)
    case ForwardCandidate(t, accepted) => ForwardReading(t, accepted)
    case ExecuteDirectly(t) => Staging(t, Direct)
  }

  predicate ParentsExist(store: Store, parents: seq<Sha>) {
    forall p :: p in parents ==> p < |store|
  }

  ghost function Happen(w: World, e: Event): World {
    match e
    case Begin(i, op) => w.(procs := w.procs[i := FirstCommand(w, op)])
    case Continue(i) => var (w', p') := Command(w, ProcOf(w, i)); w'.(procs := w'.procs[i := p'])
    case Crash(i) => w.(procs := w.procs[i := Idle])
    case Admit(t, c, files) =>
      if t in w.candidates || c.base >= |w.store| then w
      else w.(candidates := w.candidates[t := c],
              worktrees := w.worktrees[t := Worktree(c.base, w.store[c.base].tree, files)],
              lineage := w.lineage[t := [c.base]],
              created := w.created[t := 0])
    case Edit(t, index, files) =>
      if !Known(w, t) then w
      else w.(worktrees := w.worktrees[t := w.worktrees[t].(index := index, files := files)], touched := w.touched + {t})
    case CommitByOthers(t, merged, tree, message) =>
      if !Known(w, t) || !ParentsExist(w.store, merged) then w
      else CommitIn(w, t, merged, tree, message).(touched := w.touched + {t})
    case CommitElsewhere(commit) =>
      if ParentsExist(w.store, commit.parents) then w.(store := w.store + [commit]) else w
    case Complete(t) =>
      if t in w.intents then w.(intents := w.intents[t := w.intents[t].(completed := true)]) else w
  }

  ghost function After(w: World, events: seq<Event>): World {
    if events == [] then w else Happen(After(w, events[..|events| - 1]), events[|events| - 1])
  }

  ghost predicate Initial(w: World) {
    && WellFormed(w.store)
    && w == World(w.store, map[], map[], map[], map[], map[], map[], map[], [], map[], {}, {})
  }

  ghost predicate Reachable(w: World) {
    exists start, events :: Initial(start) && w == After(start, events)
  }
}
