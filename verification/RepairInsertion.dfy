/**
  Inserting a repair task between a finished task and its children, as the
  board adapter and the scheduler command carry it out: one Hermes command at a
  time, each of which may take effect, be ignored, or kill the controller
  before or after taking effect. The intent recorded first freezes the list of
  children, so a run cut off anywhere can be started again.
 */
module RepairInsertion {
  import opened Options
  import opened DependencyGraph
  import opened RepairGraph

  datatype Status = Todo | Ready | Scheduled | Running | Review | Blocked | Triage | Done | Archived

  /** handedOff: the latest run ended blocked with the Local First handoff summary. */
  datatype Task = Task(status: Status, handedOff: bool)

  /** What becomes of a command: it takes effect or not, and the controller lives or not. */
  datatype Reply = Applied | Ignored | DiesBefore | DiesAfter {
    predicate Takes() {
      Applied? || DiesAfter?
    }

    predicate Kills() {
      DiesBefore? || DiesAfter?
    }
  }

  function First(replies: seq<Reply>): Reply {
    if replies == [] then Applied else replies[0]
  }

  function Rest(replies: seq<Reply>): seq<Reply> {
    if replies == [] then [] else replies[1..]
  }

  datatype RepairError =
    | ControllerDied | PredecessorNotTerminal | DependsOnItself | NoTaskId | IdentityConflict
    | UnexpectedParents | MissingPredecessor | UnexpectedChildren
    | ChildBusy(child: Node) | ChildNotParked(child: Node) | LinkDidNotConverge(child: Node)
    | RewriteDidNotConverge(child: Node) | GraphDidNotConverge | UnsupportedStatus

  datatype Result<+T> = Ok(value: T) | Err(error: RepairError)

  /** What releasing the repair task makes of its status: with a workspace a blocked one is unblocked, and without a done predecessor promoted. */
  function Settled(status: Status, done: bool, hasWorkspace: bool): Status {
    match status
    case Blocked => if hasWorkspace then Ready else Blocked
    case Todo => if done then Todo else Ready
    case _ => status
  }

  /** How far a run cut off anywhere may have brought it. */
  predicate MayBecome(before: Status, after: Status, done: bool, hasWorkspace: bool) {
    || after == before
    || after == Settled(before, done, hasWorkspace)
    || (before == Blocked && hasWorkspace && !done && after == Todo)
  }

  lemma MayStay(status: Status, done: bool, hasWorkspace: bool)
    ensures MayBecome(status, status, done, hasWorkspace)
  {
  }

  lemma MayBecomeThen(a: Status, b: Status, c: Status, done: bool, hasWorkspace: bool)
    requires MayBecome(a, b, done, hasWorkspace) && MayBecome(b, c, done, hasWorkspace)
    ensures MayBecome(a, c, done, hasWorkspace)
  {
  }

  /** A last run settles what the runs before it may have left half done. */
  lemma MayBecomeSettles(a: Status, b: Status, done: bool, hasWorkspace: bool)
    requires MayBecome(a, b, done, hasWorkspace)
    ensures a == Blocked ==> Settled(b, done, hasWorkspace) == if hasWorkspace then Ready else Blocked
    ensures a == Ready ==> Settled(b, done, hasWorkspace) == Ready
  {
  }

  class HermesBoard {
    var tasks: map<Node, Task>
    var edges: Edges
    /** The task Hermes made for the idempotency key, and the name the next one will get. */
    var keyed: bool
    const nextId: Node
    /** How the coming commands will fare; after that, every command takes effect. */
    var replies: seq<Reply>

    ghost predicate Smooth() reads this`replies {
      forall i :: 0 <= i < |replies| ==> replies[i] == Applied
    }

    method NextReply() returns (reply: Reply)
      modifies this`replies
      ensures reply == First(old(replies)) && replies == Rest(old(replies))
      ensures old(Smooth()) ==> reply == Applied && Smooth()
    {
      if replies == [] {
        return Applied;
      }
      reply := replies[0];
      replies := replies[1..];
    }

    /** The children and parents get_task reports. */
    function ChildrenOf(id: Node): set<Node> reads this`edges {
      set e | e in edges && e.0 == id :: e.1
    }

    function ParentsOf(id: Node): set<Node> reads this`edges {
      set e | e in edges && e.1 == id :: e.0
    }

    // ----- Hermes commands -----

    method Create(parent: set<Node>) returns (alive: bool, id: Result<Node>)
      modifies this
      ensures old(Smooth()) ==> Smooth()
      ensures replies == Rest(old(replies)) && (alive <==> !First(old(replies)).Kills())
      ensures if First(old(replies)).Takes() then id == Ok(nextId) && keyed else id == Err(NoTaskId) && keyed == old(keyed)
      ensures if keyed == old(keyed) then tasks == old(tasks) && edges == old(edges)
              else keyed && tasks == old(tasks)[nextId := Task(Blocked, false)] && edges == old(edges) + set p | p in parent :: (p, nextId)
    {
      var reply := NextReply();
      alive := !reply.Kills();
      id := Err(NoTaskId);
      if reply.Takes() {
        if !keyed {
          keyed := true;
          tasks := tasks[nextId := Task(Blocked, false)];
          edges := edges + set p | p in parent :: (p, nextId);
        }
        id := Ok(nextId);
      }
    }

    method Link(parent: Node, child: Node) returns (alive: bool)
      modifies this`replies, this`edges
      ensures replies == Rest(old(replies)) && (alive <==> !First(old(replies)).Kills()) && (old(Smooth()) ==> Smooth())
      ensures edges == if First(old(replies)).Takes() then old(edges) + {(parent, child)} else old(edges)
    {
      var reply := NextReply();
      if reply.Takes() {
        edges := edges + {(parent, child)};
      }
      alive := !reply.Kills();
    }

    method Unlink(parent: Node, child: Node) returns (alive: bool)
      modifies this`replies, this`edges
      ensures replies == Rest(old(replies)) && (alive <==> !First(old(replies)).Kills()) && (old(Smooth()) ==> Smooth())
      ensures edges == if First(old(replies)).Takes() then old(edges) - {(parent, child)} else old(edges)
    {
      var reply := NextReply();
      if reply.Takes() {
        edges := edges - {(parent, child)};
      }
      alive := !reply.Kills();
    }

    /** block, unblock and promote: the command gives the task a new status. */
    method SetStatus(id: Node, status: Status) returns (alive: bool)
      requires id in tasks
      modifies this`replies, this`tasks
      ensures replies == Rest(old(replies)) && (alive <==> !First(old(replies)).Kills()) && (old(Smooth()) ==> Smooth())
      ensures tasks == if First(old(replies)).Takes() then old(tasks)[id := old(tasks)[id].(status := status)] else old(tasks)
    {
      var reply := NextReply();
      if reply.Takes() {
        tasks := tasks[id := tasks[id].(status := status)];
      }
      alive := !reply.Kills();
    }

    // ----- What is true at every moment -----

    /** The child is parked once any of its edges has changed. */
    predicate ParkedBeforeMoved(f: Frozen, c: Node) reads this`tasks, this`edges {
      (f.repair, c) in edges || (f.predecessor, c) !in edges ==> c in tasks && tasks[c].status == Blocked
    }

    ghost predicate InProgress(f: Frozen) reads this`tasks, this`edges, this`keyed {
      && WellFrozen(f) && f.repair == nextId
      && f.predecessor in tasks && f.children <= tasks.Keys
      && Between(f, edges)
      && (forall c :: c in f.children ==> ParkedBeforeMoved(f, c))
      && (tasks[f.predecessor].status == Done ==> Anchored(f, edges))
      && (if keyed then f.repair in tasks && (tasks[f.predecessor].status == Done ==> (f.predecessor, f.repair) in edges)
          else edges == f.edges)
    }

    lemma RepairIsNoChild(f: Frozen)
      requires InProgress(f)
      ensures f.repair !in f.children && f.predecessor !in f.children && f.children <= tasks.Keys
      ensures f.predecessor in tasks && f.repair != f.predecessor && f.repair == nextId && (keyed ==> f.repair in tasks)
    {
    }

    /** The status of the repair task, which is created blocked. */
    function RepairStatus(): Status reads this`tasks, this`keyed {
      if keyed && nextId in tasks then tasks[nextId].status else Blocked
    }

    predicate Terminal(id: Node)
      requires id in tasks
      reads this`tasks
    {
      tasks[id].status == Done || ((tasks[id].status == Blocked || tasks[id].status == Triage) && tasks[id].handedOff)
    }

    /** Nothing stands in the way: the predecessor is finished and no child has started. */
    predicate CanFinish(f: Frozen)
      reads this`tasks
    {
      && f.predecessor in tasks && f.children <= tasks.Keys
      && Terminal(f.predecessor)
      && (forall c :: c in f.children ==> tasks[c].status != Running && tasks[c].status != Done)
      && (nextId in tasks ==> tasks[nextId].status != Review && tasks[nextId].status != Triage && tasks[nextId].status != Archived)
    }

    lemma CanFinishMeans(f: Frozen)
      ensures CanFinish(f) && nextId in tasks ==> tasks[nextId].status !in {Review, Triage, Archived}
    {
    }

    predicate Busy(status: Status) {
      status == Running || status == Done
    }

    /** How a step of one command ends whose effect is looked up again: dead, without the effect, or well. */
    function Outcome(reply: Reply, missed: RepairError): Result<()> {
      if reply.Kills() then Err(ControllerDied) else if reply.Ignored? then Err(missed) else Ok(())
    }

    /** A child is parked before any of its edges changes; a child that has started is left alone. */
    method Park(ghost f: Frozen, child: Node) returns (r: Result<()>)
      requires InProgress(f) && child in f.children
      modifies this`replies, this`tasks
      ensures InProgress(f)
      ensures tasks.Keys == old(tasks.Keys) && forall id :: id in tasks && id != child ==> tasks[id] == old(tasks)[id]
      ensures Busy(old(tasks)[child].status) ==> r == Err(ChildBusy(child)) && tasks == old(tasks) && replies == old(replies)
      ensures old(tasks)[child].status == Blocked ==> r == Ok(()) && tasks == old(tasks) && replies == old(replies)
      ensures !Busy(old(tasks)[child].status) && old(tasks)[child].status != Blocked ==>
        && replies == Rest(old(replies))
        && tasks[child].status == (if First(old(replies)).Takes() then Blocked else old(tasks)[child].status)
        && r == Outcome(First(old(replies)), ChildNotParked(child))
      ensures r.Ok? ==> tasks[child].status == Blocked
      ensures old(Smooth()) ==> Smooth() && (r.Ok? <==> !Busy(old(tasks)[child].status))
      ensures old(Smooth()) && old(CanFinish(f)) ==> r.Ok?
      ensures old(CanFinish(f)) ==> CanFinish(f)
    {
      if tasks[child].status == Running || tasks[child].status == Done {
        return Err(ChildBusy(child));
      }
      if tasks[child].status != Blocked {
        var alive := SetStatus(child, Blocked);
        if !alive {
          return Err(ControllerDied);
        }
      }
      if tasks[child].status != Blocked {
        return Err(ChildNotParked(child));
      }
      r := Ok(());
    }

    /** A parked child is linked below the repair task, and the link is looked up again. */
    method LinkBelowRepair(ghost f: Frozen, repair: Node, child: Node) returns (r: Result<()>)
      requires InProgress(f) && keyed && f.repair == repair && child in f.children && tasks[child].status == Blocked
      modifies this`replies, this`edges
      ensures InProgress(f)
      ensures (repair, child) in old(edges) ==> r == Ok(()) && edges == old(edges) && replies == old(replies)
      ensures (repair, child) !in old(edges) ==>
        && replies == Rest(old(replies)) && r == Outcome(First(old(replies)), LinkDidNotConverge(child))
        && edges == if First(old(replies)).Takes() then old(edges) + {(repair, child)} else old(edges)
      ensures r.Ok? ==> (repair, child) in edges
      ensures old(Smooth()) ==> r.Ok? && Smooth()
      ensures old(CanFinish(f)) ==> CanFinish(f)
    {
      if (repair, child) !in edges {
        var alive := Link(repair, child);
        if !alive {
          return Err(ControllerDied);
        }
      }
      if (repair, child) !in edges {
        return Err(LinkDidNotConverge(child));
      }
      r := Ok(());
    }

    /** A child linked there is unlinked from the predecessor, and both edges are looked up again. */
    method UnlinkFromPredecessor(ghost f: Frozen, predecessor: Node, repair: Node, child: Node) returns (r: Result<()>)
      requires InProgress(f) && keyed && f.predecessor == predecessor && f.repair == repair && child in f.children
      requires tasks[child].status == Blocked && (repair, child) in edges
      modifies this`replies, this`edges
      ensures InProgress(f)
      ensures (predecessor, child) !in old(edges) ==> r == Ok(()) && edges == old(edges) && replies == old(replies)
      ensures (predecessor, child) in old(edges) ==>
        && replies == Rest(old(replies)) && r == Outcome(First(old(replies)), RewriteDidNotConverge(child))
        && edges == if First(old(replies)).Takes() then old(edges) - {(predecessor, child)} else old(edges)
      ensures r.Ok? ==> (repair, child) in edges && (predecessor, child) !in edges
      ensures old(Smooth()) ==> r.Ok? && Smooth()
      ensures old(CanFinish(f)) ==> CanFinish(f)
    {
      if (predecessor, child) in edges {
        var alive := Unlink(predecessor, child);
        if !alive {
          return Err(ControllerDied);
        }
      }
      if (repair, child) !in edges || (predecessor, child) in edges {
        return Err(RewriteDidNotConverge(child));
      }
      r := Ok(());
    }

    /** One child of the loop: park it, link it below the repair task, unlink it from the predecessor. */
    method MoveChild(ghost f: Frozen, predecessor: Node, repair: Node, child: Node) returns (r: Result<()>)
      requires InProgress(f) && keyed && f.predecessor == predecessor && f.repair == repair && child in f.children
      modifies this`replies, this`tasks, this`edges
      ensures InProgress(f)
      ensures tasks.Keys == old(tasks.Keys) && forall id :: id in tasks && id != child ==> tasks[id] == old(tasks)[id]
      ensures forall e :: e != (predecessor, child) && e != (repair, child) ==> (e in edges <==> e in old(edges))
      ensures Busy(old(tasks)[child].status) ==> r == Err(ChildBusy(child)) && tasks == old(tasks) && edges == old(edges)
      ensures r.Ok? ==> tasks[child].status == Blocked
      ensures r.Ok? ==> (repair, child) in edges && (predecessor, child) !in edges
      ensures old(Smooth()) && old(CanFinish(f)) ==> r.Ok? && Smooth()
      ensures old(CanFinish(f)) ==> CanFinish(f)
    {
      hide *;
      r := Park(f, child);
      if r.Err? {
        return;
      }
      r := LinkBelowRepair(f, repair, child);
      if r.Err? {
        return;
      }
      r := UnlinkFromPredecessor(f, predecessor, repair, child);
    }

    lemma KeyedParents(f: Frozen, predecessor: Node)
      requires InProgress(f) && predecessor == f.predecessor && keyed
      ensures ParentsOf(f.repair) <= {predecessor}
      ensures tasks[predecessor].status == Done ==> predecessor in ParentsOf(f.repair)
    {
    }

    /** create, with the predecessor as a parent if it is done. */
    method CreateOrFind(ghost f: Frozen, predecessor: Node) returns (alive: bool, id: Result<Node>)
      requires InProgress(f) && predecessor == f.predecessor
      modifies this
      ensures InProgress(f) && (old(CanFinish(f)) ==> CanFinish(f)) && (old(Smooth()) ==> Smooth())
      ensures replies == Rest(old(replies)) && (alive <==> !First(old(replies)).Kills())
      ensures if First(old(replies)).Takes() then id == Ok(f.repair) && keyed else id == Err(NoTaskId) && keyed == old(keyed)
      ensures tasks[predecessor] == old(tasks)[predecessor] && forall c :: c in f.children ==> tasks[c] == old(tasks)[c]
      ensures RepairStatus() == old(RepairStatus()) && ChildrenOf(f.repair) == old(ChildrenOf(f.repair))
      ensures forall e :: e != (predecessor, f.repair) ==> (e in edges <==> e in old(edges))
      ensures tasks[predecessor].status != Done ==> edges == old(edges)
    {
      alive, id := Create(if tasks[predecessor].status == Done then {predecessor} else {});
    }

    /** A predecessor that is not done is no parent of the repair task. */
    method Unparent(ghost f: Frozen, predecessor: Node, repair: Node) returns (alive: bool)
      requires InProgress(f) && predecessor == f.predecessor && repair == f.repair && tasks[predecessor].status != Done
      modifies this`replies, this`edges
      ensures InProgress(f)
      ensures replies == Rest(old(replies)) && (alive <==> !First(old(replies)).Kills()) && (old(Smooth()) ==> Smooth())
      ensures edges == if First(old(replies)).Takes() then old(edges) - {(predecessor, repair)} else old(edges)
      ensures ChildrenOf(repair) == old(ChildrenOf(repair))
    {
      alive := Unlink(predecessor, repair);
    }

    /** The repair task, created or found again, with the parents and children it may have. */
    method PrepareRepairTask(ghost f: Frozen, predecessor: Node, expected: set<Node>) returns (r: Result<Node>)
      requires InProgress(f) && predecessor == f.predecessor && expected <= f.children + {predecessor}
      modifies this
      ensures InProgress(f)
      ensures tasks[predecessor] == old(tasks)[predecessor]
      ensures r.Ok? ==> r.value == f.repair && keyed && Terminal(predecessor)
      ensures r.Ok? ==> ((predecessor, f.repair) in edges <==> tasks[predecessor].status == Done)
      ensures r.Ok? ==> ChildrenOf(f.repair) <= expected
      ensures ChildrenOf(f.repair) == old(ChildrenOf(f.repair)) && RepairStatus() == old(RepairStatus())
      ensures !old(Terminal(predecessor)) ==> r == Err(PredecessorNotTerminal)
      ensures old(Terminal(predecessor)) && predecessor in expected ==> r == Err(DependsOnItself)
      ensures !old(Terminal(predecessor)) || predecessor in expected ==>
        tasks == old(tasks) && edges == old(edges) && keyed == old(keyed) && replies == old(replies)
      ensures forall c :: c in f.children ==> tasks[c] == old(tasks)[c] && ((predecessor, c) in edges <==> (predecessor, c) in old(edges))
      ensures old(Terminal(predecessor)) && predecessor !in expected && First(old(replies)).Kills() ==> r == Err(ControllerDied)
      ensures old(Terminal(predecessor)) && predecessor !in expected && First(old(replies)).Ignored? ==> r == Err(NoTaskId)
      ensures old(Terminal(predecessor)) && predecessor !in expected && tasks[predecessor].status != Done && (predecessor, f.repair) in old(edges)
          && First(old(replies)) == Applied && First(Rest(old(replies))).Kills()
        ==> r == Err(ControllerDied)
      ensures old(Terminal(predecessor)) && predecessor !in expected && First(old(replies)) == Applied
          && tasks[predecessor].status != Done && (predecessor, f.repair) !in old(edges)
        ==> replies == Rest(old(replies))
      ensures tasks[predecessor].status != Done && (predecessor, f.repair) !in old(edges) ==> (predecessor, f.repair) !in edges
      ensures old(Smooth()) && old(CanFinish(f)) && old(ChildrenOf(f.repair)) <= expected && predecessor !in expected ==> r.Ok? && Smooth()
      ensures old(CanFinish(f)) ==> CanFinish(f)
    {
      if !Terminal(predecessor) {
        return Err(PredecessorNotTerminal);
      }
      if predecessor in expected {
        return Err(DependsOnItself);
      }
      hide InProgress, CanFinish;
      RepairIsNoChild(f);
      var done := tasks[predecessor].status == Done;
      var alive, id := CreateOrFind(f, predecessor);
      if !alive {
        return Err(ControllerDied);
      }
      if id.Err? {
        return Err(id.error);
      }
      var repair := id.value;
      if repair == predecessor {
        return Err(IdentityConflict);
      }
      var expectedParents := if done then {predecessor} else {};
      if !done && predecessor in ParentsOf(repair) {
        alive := Unparent(f, predecessor, repair);
        if !alive {
          return Err(ControllerDied);
        }
      }
      KeyedParents(f, predecessor);
      if !(ParentsOf(repair) <= expectedParents) {
        return Err(UnexpectedParents);
      }
      if !(expectedParents <= ParentsOf(repair)) {
        return Err(MissingPredecessor);
      }
      if !(ChildrenOf(repair) <= expected) {
        return Err(UnexpectedChildren);
      }
      r := Ok(repair);
    }

    method MoveChildren(ghost f: Frozen, predecessor: Node, repair: Node, expected: set<Node>) returns (r: Result<()>)
      requires InProgress(f) && keyed && predecessor == f.predecessor && repair == f.repair && expected <= f.children
      modifies this`replies, this`tasks, this`edges
      ensures InProgress(f)
      ensures tasks.Keys == old(tasks.Keys) && forall id :: id in tasks && id !in f.children ==> tasks[id] == old(tasks)[id]
      ensures (predecessor, repair) in edges <==> (predecessor, repair) in old(edges)
      ensures forall c :: c in f.children && Busy(old(tasks)[c].status) ==>
        tasks[c] == old(tasks)[c] && ((predecessor, c) in edges <==> (predecessor, c) in old(edges))
      ensures (exists c :: c in expected && Busy(old(tasks)[c].status)) ==> r.Err?
      ensures r.Ok? ==> forall c :: c in expected ==> (repair, c) in edges && (predecessor, c) !in edges
      ensures old(Smooth()) && old(CanFinish(f)) ==> r.Ok? && Smooth()
      ensures old(CanFinish(f)) ==> CanFinish(f)
    {
      hide *;
      RepairIsNoChild(f);
      var rest := expected;
      while rest != {}
        invariant InProgress(f) && rest <= expected && f.children <= tasks.Keys
        invariant tasks.Keys == old(tasks.Keys) && forall id :: id in tasks && id !in f.children ==> tasks[id] == old(tasks)[id]
        invariant (predecessor, repair) in edges <==> (predecessor, repair) in old(edges)
        invariant forall c :: c in expected && c !in rest ==> (repair, c) in edges && (predecessor, c) !in edges && !Busy(old(tasks)[c].status)
        invariant forall c :: c in f.children && (c in rest || c !in expected) ==> tasks[c] == old(tasks)[c]
        invariant forall c :: c in f.children && (c in rest || c !in expected) ==> ((predecessor, c) in edges <==> (predecessor, c) in old(edges))
        invariant old(CanFinish(f)) ==> CanFinish(f)
        invariant old(Smooth()) && old(CanFinish(f)) ==> Smooth()
        decreases rest
      {
        var child :| child in rest;
        var moved := MoveChild(f, predecessor, repair, child);
        if moved.Err? {
          return Err(moved.error);
        }
        rest := rest - {child};
      }
      r := Ok(());
    }

    /** The repair task is no child and no predecessor, so its status is nobody's business but its own. */
    method SetRepairStatus(ghost f: Frozen, repair: Node, status: Status) returns (alive: bool)
      requires InProgress(f) && keyed && repair == f.repair && status !in {Review, Triage, Archived}
      modifies this`replies, this`tasks
      ensures InProgress(f) && repair in tasks && (old(CanFinish(f)) ==> CanFinish(f))
      ensures replies == Rest(old(replies)) && (alive <==> !First(old(replies)).Kills()) && (old(Smooth()) ==> Smooth())
      ensures tasks == if First(old(replies)).Takes() then old(tasks)[repair := old(tasks)[repair].(status := status)] else old(tasks)
    {
      alive := SetStatus(repair, status);
    }

    /** Unblocking and promoting the repair task once the graph is in place. */
    method ReleaseRepairTask(ghost f: Frozen, repair: Node, done: bool, hasWorkspace: bool) returns (r: Result<Node>)
      requires InProgress(f) && keyed && repair == f.repair
      modifies this`replies, this`tasks
      ensures InProgress(f)
      ensures tasks.Keys == old(tasks.Keys) && forall id :: id in tasks && id != repair ==> tasks[id] == old(tasks)[id]
      ensures r.Ok? ==> r.value == repair && RepairStatus() !in {Review, Triage, Archived}
      ensures First(old(replies)).Kills() && ((hasWorkspace && old(RepairStatus()) == Blocked) || (!done && old(RepairStatus()) == Todo))
        ==> r == Err(ControllerDied)
      ensures hasWorkspace && !done && old(RepairStatus()) == Blocked && First(old(replies)) == Applied && First(Rest(old(replies))).Kills()
        ==> r == Err(ControllerDied)
      ensures MayBecome(old(RepairStatus()), RepairStatus(), done, hasWorkspace)
      ensures old(Smooth()) ==> RepairStatus() == Settled(old(RepairStatus()), done, hasWorkspace)
      ensures old(Smooth()) && old(CanFinish(f)) ==> r.Ok?
      ensures old(CanFinish(f)) ==> CanFinish(f)
    {
      hide InProgress, CanFinish;
      RepairIsNoChild(f);
      CanFinishMeans(f);
      if hasWorkspace && tasks[repair].status == Blocked {
        var alive := SetRepairStatus(f, repair, if done then Ready else Todo);
        if !alive {
          return Err(ControllerDied);
        }
      }
      if !done && tasks[repair].status == Todo {
        var alive := SetRepairStatus(f, repair, Ready);
        if !alive {
          return Err(ControllerDied);
        }
      }
      if tasks[repair].status == Review || tasks[repair].status == Triage || tasks[repair].status == Archived {
        return Err(UnsupportedStatus);
      }
      r := Ok(repair);
    }

    /**
      create_repair_task. Given the frozen list it ends with the rewritten
      graph; a list that misses a child already moved, as one read from the
      live board after a crash would, is refused.
     */
    method CreateRepairTask(ghost f: Frozen, predecessor: Node, expected: set<Node>, hasWorkspace: bool) returns (r: Result<Node>)
      requires InProgress(f) && predecessor == f.predecessor && expected <= f.children + {predecessor}
      modifies this
      ensures InProgress(f)
      ensures tasks[predecessor] == old(tasks)[predecessor]
      ensures r.Ok? ==> r.value == f.repair && keyed
      ensures r.Ok? && expected == f.children ==> edges == Rewritten(f, tasks[predecessor].status == Done)
      ensures r.Ok? ==> RepairStatus() !in {Review, Triage, Archived}
      ensures MayBecome(old(RepairStatus()), RepairStatus(), tasks[predecessor].status == Done, hasWorkspace)
      ensures old(Smooth()) && old(CanFinish(f)) && expected == f.children
        ==> RepairStatus() == Settled(old(RepairStatus()), tasks[predecessor].status == Done, hasWorkspace)
      ensures !old(Terminal(predecessor)) ==> r == Err(PredecessorNotTerminal)
      ensures old(Terminal(predecessor)) && predecessor in expected ==> r == Err(DependsOnItself)
      ensures !old(Terminal(predecessor)) || predecessor in expected ==> tasks == old(tasks) && edges == old(edges) && keyed == old(keyed)
      ensures (exists c :: c in expected && c in f.children && Busy(old(tasks)[c].status)) ==> r.Err?
      ensures forall c :: c in f.children && Busy(old(tasks)[c].status) ==>
        tasks[c] == old(tasks)[c] && ((predecessor, c) in edges <==> (predecessor, c) in old(edges))
      ensures !(old(ChildrenOf(f.repair)) <= expected) ==> r.Err?
      ensures old(Smooth()) && old(CanFinish(f)) && expected == f.children ==> r.Ok?
      ensures old(CanFinish(f)) ==> CanFinish(f)
    {
      RepairChildrenAreFrozen(f);
      r := PrepareRepairTask(f, predecessor, expected);
      if r.Err? {
        return;
      }
      var repair := r.value;
      var done := tasks[predecessor].status == Done;
      var moved := MoveChildren(f, predecessor, repair, expected);
      if moved.Err? {
        return Err(moved.error);
      }
      if ChildrenOf(repair) != expected {
        assert expected == f.children ==> false by {
          RepairChildrenAreFrozen(f);
        }
        return Err(GraphDidNotConverge);
      }
      if expected == f.children {
        AllMovedIsRewritten(f, edges, done);
      }
      r := ReleaseRepairTask(f, repair, done, hasWorkspace);
    }

    lemma RepairChildrenAreFrozen(f: Frozen)
      requires InProgress(f)
      ensures ChildrenOf(f.repair) <= f.children
    {
    }
  }

  /**
    What holds at every moment of the rewrite, since a run may end after any
    command: each child waits for the predecessor or the repair task, is parked
    once any edge of it has changed, and the graph has gained no cycle; under a
    done predecessor the old tasks depend on one another as they did.
   */
  lemma EveryMomentIsSafe(board: HermesBoard, f: Frozen, c: Node, u: Node, v: Node)
    requires board.InProgress(f)
    ensures c in f.children ==> (f.predecessor, c) in board.edges || (f.repair, c) in board.edges
    ensures c in f.children && ((f.repair, c) in board.edges || (f.predecessor, c) !in board.edges) ==> board.tasks[c].status == Blocked
    ensures !HasCycle(f.edges) ==> !HasCycle(board.edges)
    ensures board.tasks[f.predecessor].status == Done && u != f.repair && v != f.repair
      ==> (Reaches(board.edges, u, v) <==> Reaches(f.edges, u, v))
  {
    if !HasCycle(f.edges) {
      StaysAcyclic(f, board.edges);
    }
    if board.tasks[f.predecessor].status == Done && u != f.repair && v != f.repair {
      ReachabilityIsKept(f, board.edges, u, v);
    }
    assert c in f.children ==> board.ParkedBeforeMoved(f, c);
  }

  /** activate_generated_work: the intent is recorded before the first board command, the completion after the last. */
  class RepairActivation {
    const board: HermesBoard
    var intent: Option<set<Node>>
    var completed: bool

    constructor (board: HermesBoard)
      ensures this.board == board && intent == None && !completed
    {
      this.board, intent, completed := board, None, false;
    }

    ghost predicate Valid(f: Frozen) reads this, board {
      && board.InProgress(f)
      && (intent == None ==> !board.keyed)
      && (intent.Some? ==> intent.value == f.children)
    }

    method ActivateGeneratedWork(ghost f: Frozen, predecessor: Node, hasWorkspace: bool) returns (r: Result<Node>)
      requires Valid(f) && predecessor == f.predecessor
      modifies this, board
      ensures Valid(f)
      ensures board.tasks[predecessor] == old(board.tasks)[predecessor]
      ensures r.Ok? ==> completed && r.value == f.repair && board.edges == Rewritten(f, board.tasks[predecessor].status == Done)
      ensures !old(board.Terminal(predecessor)) ==>
        r == Err(PredecessorNotTerminal) && intent == old(intent) && board.tasks == old(board.tasks) && board.edges == old(board.edges)
      ensures old(board.Terminal(predecessor)) && old(intent) == None ==>
        && intent == (if First(old(board.replies)).Takes() then Some(f.children) else None)
        && (First(old(board.replies)) != Applied ==> r == Err(ControllerDied) && board.tasks == old(board.tasks) && board.edges == old(board.edges))
      ensures old(intent).Some? ==> intent == old(intent)
      ensures old(board.Smooth()) && old(board.CanFinish(f)) ==> r.Ok?
      ensures MayBecome(old(board.RepairStatus()), board.RepairStatus(), board.tasks[predecessor].status == Done, hasWorkspace)
      ensures old(board.Smooth()) && old(board.CanFinish(f))
        ==> board.RepairStatus() == Settled(old(board.RepairStatus()), board.tasks[predecessor].status == Done, hasWorkspace)
      ensures old(board.CanFinish(f)) ==> board.CanFinish(f)
    {
      if intent == None {
        if !board.Terminal(predecessor) {
          return Err(PredecessorNotTerminal);
        }
        var children := board.ChildrenOf(predecessor);
        var reply := board.NextReply();
        if reply.Takes() {
          intent := Some(children);
        }
        if !reply.Applied? {
          return Err(ControllerDied);
        }
      }
      r := board.CreateRepairTask(f, predecessor, intent.value, hasWorkspace);
      if r.Ok? {
        completed := true;
      }
    }

    /**
      Any number of runs, each cut off wherever its replies say, and then one
      that is not: every run keeps what must hold at every moment, and the last
      one always ends with the same graph. With a workspace the repair task is
      then ready to be worked on, whether the predecessor is done or handed off;
      without one it stays parked.
     */
    method RunUntilDone(ghost f: Frozen, predecessor: Node, hasWorkspace: bool, runs: seq<seq<Reply>>) returns (repair: Node)
      requires Valid(f) && predecessor == f.predecessor && board.CanFinish(f)
      modifies this, board
      ensures Valid(f) && completed && repair == f.repair
      ensures board.edges == Rewritten(f, old(board.tasks)[predecessor].status == Done)
      ensures old(board.RepairStatus()) == Blocked ==> board.RepairStatus() == if hasWorkspace then Ready else Blocked
      ensures old(board.RepairStatus()) == Ready ==> board.RepairStatus() == Ready
    {
      hide MayBecome, Settled, HermesBoard.CanFinish, HermesBoard.InProgress, HermesBoard.RepairStatus;
      board.RepairIsNoChild(f);
      ghost var done := board.tasks[predecessor].status == Done;
      MayStay(board.RepairStatus(), done, hasWorkspace);
      for i := 0 to |runs|
        invariant Valid(f) && board.CanFinish(f) && predecessor in board.tasks
        invariant board.tasks[predecessor] == old(board.tasks)[predecessor]
        invariant MayBecome(old(board.RepairStatus()), board.RepairStatus(), done, hasWorkspace)
      {
        ghost var before := board.RepairStatus();
        board.replies := runs[i];
        var r := ActivateGeneratedWork(f, predecessor, hasWorkspace);
        MayBecomeThen(old(board.RepairStatus()), before, board.RepairStatus(), done, hasWorkspace);
      }
      MayBecomeSettles(old(board.RepairStatus()), board.RepairStatus(), done, hasWorkspace);
      board.replies := [];
      var last := ActivateGeneratedWork(f, predecessor, hasWorkspace);
      repair := last.value;
    }
  }
}
