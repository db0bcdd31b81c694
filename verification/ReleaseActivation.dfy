/**
  activate_native_release_revalidation for one signed revalidation: an intent, the
  unblock, the mark, the acknowledgement. A run may die before any durable step
  and be started again; other people may write to the board at any moment, but
  take nothing out of its comments and events. One controller at a time works on the release.
 */
module ReleaseActivation {
  import opened Options
  import opened Json
  import opened Snapshot
  import opened ActivationSnapshot

  /** The signed approval: its request, and the snapshot its authority was prepared with. */
  datatype Approval = Approval(requestKey: string, preSnapshot: Dict)

  datatype Status = Pending | EffectApplied | Acknowledged

  datatype Intent = Intent(approval: Approval, status: Status, post: Option<Dict>)

  datatype Failure =
    | Died | NotReady | Conflicts | NotExact | Ambiguous | Stale | Drifted | NotPaused | WrongState | RoutingDrift | NoEffect

  datatype Result = Ok(post: Dict) | Err(failure: Failure)

  datatype Part = LatestSummary | Parents | Children | Runs

  function KeyOf(part: Part): string {
    match part
    case LatestSummary => "latest_summary"
    case Parents => "parents"
    case Children => "children"
    case Runs => "runs"
  }

  /** What others may do to the board: say something, log something, change a field of the task or any other part. */
  datatype Act = Comments(comment: Value) | Logs(event: Value) | Edits(field: string, value: Value) | Rewrites(part: Part, value: Value)

  /** What becomes of the unblock command: all of it, only its comment, or nothing. */
  datatype Effect = Whole(author: string, commented: int, released: int) | CommentOnly(author: string, commented: int) | Nothing

  /** What others do between the steps of one run. */
  datatype Gaps = Gaps(beforeEffect: seq<Act>, atCommand: seq<Act>, afterEffect: seq<Act>, beforeMarker: seq<Act>, afterMark: seq<Act>, beforeAck: seq<Act>)

  const QUIET := Gaps([], [], [], [], [], [])

  predicate IsBoard(root: Dict) {
    IsAuthority(root) && root["comments"].Array? && root["events"].Array?
  }

  function StatusOf(root: Dict): Value {
    if "task" in root && root["task"].Object? then Get(root["task"].members, "status") else Null
  }

  function Acted(root: Dict, act: Act): (after: Dict)
    requires IsBoard(root)
    ensures IsBoard(after) && root["comments"].items <= after["comments"].items
  {
    match act
    case Comments(comment) => root["comments" := Array(root["comments"].items + [comment])]
    case Logs(event) => root["events" := Array(root["events"].items + [event])]
    case Edits(field, value) => root["task" := Object(root["task"].members[field := value])]
    case Rewrites(part, value) => root[KeyOf(part) := value]
  }

  function ActedAll(root: Dict, acts: seq<Act>): (after: Dict)
    requires IsBoard(root)
    ensures IsBoard(after) && root["comments"].items <= after["comments"].items
    ensures acts == [] ==> after == root
  {
    if acts == [] then root else Acted(ActedAll(root, acts[..|acts| - 1]), acts[|acts| - 1])
  }

  /** The comments that are exactly the marker. */
  function MarkerCount(comments: seq<Value>, marker: string): nat {
    if comments == [] then 0
    else
      var last := comments[|comments| - 1];
      MarkerCount(comments[..|comments| - 1], marker) + if last.Object? && Get(last.members, "body") == Str("UNBLOCK: " + marker) then 1 else 0
  }

  /** What the unblock command does, whatever it finds. */
  function Effected(root: Dict, effect: Effect, marker: string): (after: Dict)
    requires IsBoard(root)
    ensures IsBoard(after) && |after["comments"].items| == |root["comments"].items| + if effect.Nothing? then 0 else 1
  {
    match effect
    case Whole(author, commented, released) =>
      root["task" := Object(root["task"].members["status" := Str("ready")])]
          ["comments" := Array(root["comments"].items + [MarkerComment(author, marker, commented)])]
          ["events" := Array(root["events"].items + [UnblockedEvent(released)])]
    case CommentOnly(author, commented) => root["comments" := Array(root["comments"].items + [MarkerComment(author, marker, commented)])]
    case Nothing => root
  }

  lemma ScheduledStatus(root: Dict)
    requires IsScheduled(root)
    ensures StatusOf(root) == Str("scheduled")
  {
  }

  lemma EffectedStatus(root: Dict, effect: Effect, marker: string)
    requires IsBoard(root)
    ensures effect.Whole? ==> StatusOf(Effected(root, effect, marker)) == Str("ready")
    ensures effect.Nothing? ==> Effected(root, effect, marker) == root
  {
  }

  /** A snapshot that is exactly the effect of the release on the signed one. */
  ghost predicate Exact(signed: Dict, post: Dict, marker: string) {
    exists author, commented, released :: IsUnblock(signed, post, marker, author, commented, released)
  }

  /** And the marker is there once. */
  ghost predicate OnlyMarker(post: Dict, marker: string) {
    IsBoard(post) && MarkerCount(post["comments"].items, marker) == 1
  }

  lemma {:induction false} MarkersOnlyGrow(a: seq<Value>, b: seq<Value>, marker: string)
    requires a <= b
    ensures MarkerCount(a, marker) <= MarkerCount(b, marker)
    decreases |b|
  {
    if a == b {
    } else {
      MarkersOnlyGrow(a, b[..|b| - 1], marker);
    }
  }

  /** A marker read once on the live board is there once in the exact snapshot taken before. */
  lemma ExactHasOneMarker(signed: Dict, post: Dict, live: Dict, marker: string)
    requires Exact(signed, post, marker) && IsBoard(post) && IsBoard(live)
    requires post["comments"].items <= live["comments"].items && MarkerCount(live["comments"].items, marker) == 1
    ensures OnlyMarker(post, marker)
  {
    var author, commented, released :| IsUnblock(signed, post, marker, author, commented, released);
    var comments := post["comments"].items;
    MarkersOnlyGrow(comments, live["comments"].items, marker);
    assert comments[|comments| - 1] == MarkerComment(author, marker, commented);
    assert Get(MarkerComment(author, marker, commented).members, "body") == Str("UNBLOCK: " + marker);
  }

  /** An unblock that could not be faulted. */
  predicate Clean(effect: Effect) {
    effect.Whole? && Filled(Str(effect.author)) && effect.commented <= effect.released
  }

  lemma CleanEffectIsExact(signed: Dict, effect: Effect, marker: string)
    requires IsBoard(signed) && IsScheduled(signed) && Clean(effect) && MarkerCount(signed["comments"].items, marker) == 0
    ensures var post := Effected(signed, effect, marker);
      Exact(signed, post, marker) && StatusOf(post) == Str("ready") && MarkerCount(post["comments"].items, marker) == 1
  {
    var post := Effected(signed, effect, marker);
    PyEqReflexive(Object(post));
    assert post == Unblocked(signed, MarkerComment(effect.author, marker, effect.commented), UnblockedEvent(effect.released));
    hide PyEq;
    assert IsUnblock(signed, post, marker, effect.author, effect.commented, effect.released);
    var comments := post["comments"].items;
    assert comments[..|comments| - 1] == signed["comments"].items;
    assert Get(MarkerComment(effect.author, marker, effect.commented).members, "body") == Str("UNBLOCK: " + marker);
  }

  class Release {
    const revalidationId: string
    /** The snapshot the revalidation was signed for. */
    const signed: Dict
    var root: Dict
    /** The one row its revalidation may have. */
    var intent: Option<Intent>
    /** How often the command has done anything to the board. */
    var unblocks: nat
    var lives: nat

    constructor (revalidationId: string, signed: Dict, root: Dict)
      requires IsBoard(root)
      ensures this.revalidationId == revalidationId && this.signed == signed && this.root == root
      ensures intent == None && unblocks == 0 && lives == 0 && Valid()
    {
      this.revalidationId, this.signed, this.root := revalidationId, signed, root;
      intent, unblocks, lives := None, 0, 0;
    }

    function Marker(approval: Approval): (marker: string)
      ensures marker != ""
    {
      "local-first-native-release-activation:" + revalidationId + ":" + approval.requestKey
    }

    ghost predicate Valid() reads this`root, this`intent, this`unblocks {
      && IsBoard(root)
      && unblocks <= 1
      && (intent == None ==> unblocks == 0)
      && (intent.Some? ==> IsScheduled(signed) && |root["comments"].items| >= |signed["comments"].items| + unblocks)
      && (intent.Some? && intent.value.status == Acknowledged ==>
            && intent.value.post.Some? && Exact(signed, intent.value.post.value, Marker(intent.value.approval))
            && OnlyMarker(intent.value.post.value, Marker(intent.value.approval)))
    }

    /** Nobody else has written: the board is as signed, or as one faultless unblock left it. */
    ghost predicate Undisturbed(approval: Approval) reads this`root, this`intent, this`unblocks {
      && IsBoard(signed) && IsScheduled(signed) && approval.preSnapshot == signed && MarkerCount(signed["comments"].items, Marker(approval)) == 0
      && (intent.Some? ==> intent.value.approval == approval)
      && if unblocks == 0
         then root == signed && (intent.Some? ==> intent.value.status == Pending)
         else intent.Some? && exists effect :: Clean(effect) && root == Effected(signed, effect, Marker(approval))
    }

    method Step() returns (alive: bool)
      modifies this`lives
      ensures alive <==> old(lives) > 0
      ensures lives == if old(lives) > 0 then old(lives) - 1 else 0
    {
      alive := lives > 0;
      if alive {
        lives := lives - 1;
      }
    }

    method Others(acts: seq<Act>)
      requires Valid()
      modifies this`root
      ensures Valid() && root == ActedAll(old(root), acts)
    {
      for i := 0 to |acts|
        invariant Valid() && root == ActedAll(old(root), acts[..i])
      {
        hide Exact, OnlyMarker, MarkerCount, Effected, IsAuthority, PyEq, Acted;
        assert acts[..i + 1][..i] == acts[..i];
        root := Acted(root, acts[i]);
      }
      assert acts[..|acts|] == acts;
    }

    /** activation_marker_present. */
    method MarkerPresent(marker: string) returns (present: bool)
      requires IsBoard(root)
      ensures present <==> MarkerCount(root["comments"].items, marker) == 1
    {
      var comments := root["comments"].items;
      var n := 0;
      for i := 0 to |comments|
        invariant n == MarkerCount(comments[..i], marker)
      {
        assert comments[..i + 1][..i] == comments[..i];
        if comments[i].Object? && Get(comments[i].members, "body") == Str("UNBLOCK: " + marker) {
          n := n + 1;
        }
      }
      assert comments[..|comments|] == comments;
      present := n == 1;
    }

    /** activate_native_release: one unblock of a task that is still scheduled. */
    method Unblock(marker: string, routed: bool, effect: Effect, atCommand: seq<Act>) returns (r: Option<Failure>)
      requires Valid() && intent.Some? && unblocks == 0
      modifies this`root, this`unblocks, this`lives
      ensures Valid()
      ensures StatusOf(old(root)) != Str("scheduled") ==> r == Some(WrongState) && root == old(root) && unblocks == 0
      ensures StatusOf(old(root)) == Str("scheduled") && !routed ==> r == Some(RoutingDrift) && root == old(root) && unblocks == 0
      ensures StatusOf(old(root)) == Str("scheduled") && routed && old(lives) == 0 ==>
        r == Some(Died) && root == ActedAll(old(root), atCommand) && unblocks == 0
      ensures StatusOf(old(root)) == Str("scheduled") && routed && old(lives) > 0 ==>
        && root == Effected(ActedAll(old(root), atCommand), effect, marker)
        && unblocks == (if effect.Nothing? then 0 else 1) && lives == old(lives) - 1
        && r == if StatusOf(root) == Str("ready") then None else Some(NoEffect)
      ensures effect.Whole? && unblocks == 1 ==> r == None
    {
      hide Exact, OnlyMarker, MarkerCount, Effected, IsAuthority, PyEq;
      if StatusOf(root) != Str("scheduled") {
        return Some(WrongState);
      }
      if !routed {
        return Some(RoutingDrift);
      }
      Others(atCommand);
      var alive := Step();
      if !alive {
        return Some(Died);
      }
      EffectedStatus(root, effect, marker);
      root := Effected(root, effect, marker);
      if !effect.Nothing? {
        unblocks := unblocks + 1;
      }
      if StatusOf(root) != Str("ready") {
        return Some(NoEffect);
      }
      r := None;
    }

    /** acknowledge_native_release_activation. */
    method Acknowledge(post: Dict) returns (r: Result)
      requires Valid() && intent.Some? && Exact(signed, post, Marker(intent.value.approval)) && OnlyMarker(post, Marker(intent.value.approval))
      modifies this`intent, this`lives
      ensures Valid() && intent.Some? && intent.value.approval == old(intent).value.approval
      ensures old(lives) == 0 ==> r == Err(Died) && intent == old(intent)
      ensures old(lives) > 0 && old(intent).value.status == Acknowledged ==> intent == old(intent) && r == Ok(intent.value.post.value)
      ensures old(lives) > 0 && old(intent).value.status != Acknowledged ==>
        r == Ok(post) && intent == Some(old(intent).value.(status := Acknowledged, post := Some(post)))
    {
      var alive := Step();
      if !alive {
        return Err(Died);
      }
      if intent.value.status != Acknowledged {
        intent := Some(intent.value.(status := Acknowledged, post := Some(post)));
      }
      r := Ok(intent.value.post.value);
    }

    method MarkEffect(post: Dict) returns (alive: bool)
      requires Valid() && intent.Some? && intent.value.status == Pending
      modifies this`intent, this`lives
      ensures Valid() && intent.Some? && intent.value.approval == old(intent).value.approval
      ensures intent == if alive then Some(old(intent).value.(status := EffectApplied, post := Some(post))) else old(intent)
      ensures alive <==> old(lives) > 0
      ensures lives == if old(lives) > 0 then old(lives) - 1 else 0
    {
      alive := Step();
      if alive {
        intent := Some(intent.value.(status := EffectApplied, post := Some(post)));
      }
    }

    /** The effect was there already: mark it if that was not done, and acknowledge. */
    method Settle(post: Dict) returns (r: Result)
      requires Valid() && intent.Some? && intent.value.status != Acknowledged
      requires Exact(signed, post, Marker(intent.value.approval)) && OnlyMarker(post, Marker(intent.value.approval))
      modifies this`intent, this`lives
      ensures Valid() && intent.Some? && intent.value.approval == old(intent).value.approval
      ensures Acknowledging(old(intent).value, post, old(lives), r)
    {
      hide Exact, OnlyMarker, IsAuthority, Marker;
      if intent.value.status == Pending {
        var alive := MarkEffect(post);
        if !alive {
          return Err(Died);
        }
      }
      r := Acknowledge(post);
    }

    /** The intent is for another approval, or for one whose snapshot is not the signed one. */
    predicate Conflicting(found: Intent, approval: Approval) {
      found.approval != approval || approval.preSnapshot != signed
    }

    /** The task was ready when it was read, and the marker is there once. */
    predicate Seen(snapshot: Dict, live: Dict, marker: string)
      requires IsBoard(live)
    {
      StatusOf(snapshot) == Str("ready") && MarkerCount(live["comments"].items, marker) == 1
    }

    /** As far as the lives go: the effect is marked, if it was not, and acknowledged. */
    predicate Acknowledging(found: Intent, post: Dict, before: nat, r: Result) reads this`intent {
      var steps := if found.status == Pending then 2 else 1;
      && intent.Some?
      && intent.value == found.(status := if before >= steps then Acknowledged else if before == 1 then EffectApplied else found.status,
                                post := if before > 0 then Some(post) else found.post)
      && r == if before >= steps then Ok(post) else Err(Died)
    }

    /** A run that finds the intent of an earlier one; None says the effect is still to come. */
    method Replay(approval: Approval, beforeMarker: seq<Act>) returns (r: Option<Result>)
      requires Valid() && intent.Some?
      modifies this`root, this`intent, this`lives
      ensures Valid() && intent.Some? && intent.value.approval == old(intent).value.approval
      ensures Conflicting(old(intent).value, approval) ==>
        r == Some(Err(Conflicts)) && root == old(root) && intent == old(intent) && lives == old(lives)
      ensures !Conflicting(old(intent).value, approval) ==> root == ActedAll(old(root), beforeMarker)
      // The effect is there, exactly once and exact: it is acknowledged as the snapshot read first.
      ensures !Conflicting(old(intent).value, approval) && Seen(old(root), root, Marker(approval)) ==>
        if Exact(signed, old(root), Marker(approval)) then
          if old(intent).value.status == Acknowledged then intent == old(intent) && r == Some(Ok(intent.value.post.value))
          else r.Some? && Acknowledging(old(intent).value, old(root), old(lives), r.value)
        else r == Some(Err(NotExact)) && intent == old(intent)
      // It is not there: the run may go on only from the signed snapshot, and only if nothing was acknowledged.
      ensures !Conflicting(old(intent).value, approval) && !Seen(old(root), root, Marker(approval)) ==>
        && intent == old(intent) && lives == old(lives)
        && r == if old(root) != signed || StatusOf(signed) != Str("scheduled") then Some(Err(Ambiguous))
                else if intent.value.status == Acknowledged then Some(Err(NotExact))
                else None
      ensures r == None ==> unblocks == 0
      ensures r.Some? && r.value.Ok? ==> intent.value.status == Acknowledged && intent.value.post == Some(r.value.post)
      ensures beforeMarker == [] && old(Undisturbed(approval)) ==> Undisturbed(approval)
      ensures beforeMarker == [] && old(Undisturbed(approval)) && unblocks == 0 ==> r == None
      ensures beforeMarker == [] && old(Undisturbed(approval)) && unblocks == 1 && old(lives) >= 2 ==> r.Some? && r.value.Ok?
    {
      hide Exact, OnlyMarker, MarkerCount, Effected, IsAuthority, PyEq, Marker;
      if unblocks == 1 && Undisturbed(approval) {
        var e :| Clean(e) && root == Effected(signed, e, Marker(approval));
        CleanEffectIsExact(signed, e, Marker(approval));
      }
      if intent.value.approval != approval || approval.preSnapshot != signed {
        return Some(Err(Conflicts));
      }
      var marker, snapshot := Marker(approval), root;
      var preMatch := StatusOf(snapshot) == Str("scheduled") && snapshot == signed;
      var postMatch := false;
      Others(beforeMarker);
      if StatusOf(snapshot) == Str("ready") {
        postMatch := MarkerPresent(marker);
      }
      if postMatch {
        var exact := IsExact(snapshot, true, marker);
        if !exact {
          return Some(Err(NotExact));
        }
      } else if !preMatch {
        return Some(Err(Ambiguous));
      }
      if intent.value.status == Acknowledged {
        return Some(if postMatch then Ok(intent.value.post.value) else Err(NotExact));
      }
      if postMatch {
        ExactHasOneMarker(signed, snapshot, root, marker);
        var done := Settle(snapshot);
        return Some(done);
      }
      r := None;
    }

    /** validate_activation_post_snapshot against the signed snapshot. */
    method IsExact(post: Dict, present: bool, marker: string) returns (exact: bool)
      requires marker != ""
      ensures exact <==> present && Exact(signed, post, marker)
    {
      exact := ValidatePost(Object(signed), Object(post), present, marker);
    }

    /** The task is scheduled as signed, and the approval was prepared for that and is the intent's, if there is one that is still open. */
    ghost predicate Awaiting(found: Dict, prior: Option<Intent>, approval: Approval) {
      && found == signed && StatusOf(signed) == Str("scheduled") && SameDict(approval.preSnapshot, signed)
      && (prior.Some? ==> !Conflicting(prior.value, approval) && prior.value.status != Acknowledged)
    }

    /**
      One run. ready stands for writes being allowed, the signature and the
      operator's identity being right, and the revalidation being current.
     */
    method Activate(approval: Approval, ready: bool, paused: bool, routed: bool, effect: Effect, gaps: Gaps) returns (r: Result)
      requires Valid()
      modifies this`root, this`intent, this`unblocks, this`lives
      ensures Valid()
      // Without leave nothing is even looked at; without a pause, or with the routing drifted, nothing is unblocked.
      ensures !ready ==> r == Err(NotReady) && root == old(root) && intent == old(intent) && unblocks == old(unblocks)
      ensures unblocks > old(unblocks) ==> ready && paused && routed && Awaiting(old(root), old(intent), approval)
      ensures old(intent) == None && intent != None ==> ready && paused && Awaiting(old(root), old(intent), approval) && old(lives) > 0
      ensures intent != None ==> intent.value.approval == if old(intent) == None then approval else old(intent).value.approval
      // A first run: what it refuses before it writes its intent, in order.
      ensures ready && old(intent) == None && !SameDict(approval.preSnapshot, old(root)) ==> r == Err(Stale) && root == old(root)
      ensures ready && old(intent) == None && SameDict(approval.preSnapshot, old(root)) && !(old(root) == signed && StatusOf(signed) == Str("scheduled"))
        ==> r == Err(Drifted) && root == old(root)
      ensures ready && Awaiting(old(root), old(intent), approval) && !paused ==>
        r == Err(NotPaused) && intent == old(intent) && (old(intent) == None ==> root == old(root))
      ensures ready && old(intent).Some? && Conflicting(old(intent).value, approval) ==> r == Err(Conflicts) && root == old(root) && intent == old(intent)
      ensures old(lives) == 0 ==> unblocks == old(unblocks) && intent == old(intent)
      ensures r.Ok? ==> intent.Some? && intent.value.status == Acknowledged && intent.value.post == Some(r.post)
      ensures old(intent).Some? && old(intent).value.status == Acknowledged ==> intent == old(intent)
      ensures gaps == QUIET && (Clean(effect) || effect.Nothing?) && old(Undisturbed(approval)) ==> Undisturbed(approval)
      ensures gaps == QUIET && Clean(effect) && ready && paused && routed && old(Undisturbed(approval)) && old(lives) >= 4 ==> r.Ok? && unblocks == 1
    {
      hide Exact, OnlyMarker, MarkerCount, Effected, PyEq, Marker;
      if !ready {
        return Err(NotReady);
      }
      var snapshot := root;
      if intent.Some? {
        var replayed := Replay(approval, gaps.beforeMarker);
        if replayed.Some? {
          return replayed.value;
        }
      }
      PyEqReflexive(Object(signed));
      if !SameDict(approval.preSnapshot, snapshot) {
        return Err(Stale);
      }
      if snapshot != signed || StatusOf(snapshot) != Str("scheduled") {
        return Err(Drifted);
      }
      if !paused {
        return Err(NotPaused);
      }
      var alive := Step();
      if !alive {
        return Err(Died);
      }
      if intent == None {
        intent := Some(Intent(approval, Pending, None));
      }
      r := Carry(approval, routed, effect, gaps);
    }

    /** The intent is there and nothing has been done: the command, the mark and the acknowledgement. */
    method Carry(approval: Approval, routed: bool, effect: Effect, gaps: Gaps) returns (r: Result)
      requires Valid() && intent.Some? && intent.value.approval == approval && intent.value.status != Acknowledged && unblocks == 0
      modifies this`root, this`intent, this`unblocks, this`lives
      ensures Valid() && intent.Some? && intent.value.approval == approval
      ensures unblocks > 0 ==> routed && old(lives) > 0
      ensures old(intent).value.status == Pending && StatusOf(ActedAll(old(root), gaps.beforeEffect)) != Str("scheduled") ==>
        r == Err(WrongState) && intent == old(intent)
      ensures old(intent).value.status == Pending && StatusOf(ActedAll(old(root), gaps.beforeEffect)) == Str("scheduled") && !routed ==>
        r == Err(RoutingDrift) && intent == old(intent)
      ensures old(lives) == 0 ==> r.Err? && intent == old(intent)
      ensures r.Ok? ==> intent.value.status == Acknowledged && intent.value.post == Some(r.post)
      ensures gaps == QUIET && (Clean(effect) || effect.Nothing?) && old(Undisturbed(approval)) ==> Undisturbed(approval)
      ensures gaps == QUIET && Clean(effect) && routed && old(Undisturbed(approval)) && old(lives) >= 3 ==> r.Ok? && unblocks == 1
    {
      hide Exact, OnlyMarker, MarkerCount, Effected, IsAuthority, PyEq, Marker, StatusOf;
      if Undisturbed(approval) {
        ScheduledStatus(signed);
        EffectedStatus(signed, effect, Marker(approval));
        if Clean(effect) {
          CleanEffectIsExact(signed, effect, Marker(approval));
        }
      }
      if intent.value.status == Pending {
        var failure := Perform(approval, routed, effect, gaps);
        if failure.Some? {
          return Err(failure.value);
        }
      }
      r := Confirm(approval, gaps);
    }

    /** The board as the command leaves it, with what others wrote just before. */
    function Commanded(root: Dict, effect: Effect, gaps: Gaps, marker: string): (after: Dict)
      requires IsBoard(root)
      ensures IsBoard(after)
    {
      Effected(ActedAll(ActedAll(root, gaps.beforeEffect), gaps.atCommand), effect, marker)
    }

    /** The command, and a look at what it did: only its exact effect is marked. */
    method Perform(approval: Approval, routed: bool, effect: Effect, gaps: Gaps) returns (r: Option<Failure>)
      requires Valid() && intent.Some? && intent.value.approval == approval && intent.value.status == Pending && unblocks == 0
      modifies this`root, this`intent, this`unblocks, this`lives
      ensures Valid() && intent.Some? && intent.value.approval == approval
      ensures var found := ActedAll(old(root), gaps.beforeEffect);
        StatusOf(found) != Str("scheduled") ==> r == Some(WrongState) && root == found && intent == old(intent) && unblocks == 0
      ensures var found := ActedAll(old(root), gaps.beforeEffect);
        StatusOf(found) == Str("scheduled") && !routed ==> r == Some(RoutingDrift) && root == found && intent == old(intent) && unblocks == 0
      ensures var found := ActedAll(old(root), gaps.beforeEffect);
        StatusOf(found) == Str("scheduled") && routed && old(lives) == 0 ==>
          r == Some(Died) && root == ActedAll(found, gaps.atCommand) && intent == old(intent) && unblocks == 0
      ensures var found, hit := ActedAll(old(root), gaps.beforeEffect), Commanded(old(root), effect, gaps, Marker(approval));
        var post := ActedAll(hit, gaps.afterEffect);
        StatusOf(found) == Str("scheduled") && routed && old(lives) > 0 ==>
          && unblocks == (if effect.Nothing? then 0 else 1)
          && (StatusOf(hit) != Str("ready") ==> r == Some(NoEffect) && root == hit && intent == old(intent))
          && (StatusOf(hit) == Str("ready") ==> root == ActedAll(post, gaps.beforeMarker))
          && (StatusOf(hit) == Str("ready") && !Confirmed(post, root, approval) ==> r == Some(NotExact) && intent == old(intent))
          && (StatusOf(hit) == Str("ready") && Confirmed(post, root, approval) ==>
                if old(lives) == 1 then r == Some(Died) && intent == old(intent)
                else r == None && intent == Some(old(intent).value.(status := EffectApplied, post := Some(post))) && lives == old(lives) - 2)
    {
      hide Exact, OnlyMarker, MarkerCount, Effected, IsAuthority, PyEq, Marker, StatusOf;
      var marker := Marker(approval);
      Others(gaps.beforeEffect);
      r := Unblock(marker, routed, effect, gaps.atCommand);
      if r.Some? {
        return;
      }
      Others(gaps.afterEffect);
      var post := root;
      Others(gaps.beforeMarker);
      var present := MarkerPresent(marker);
      var exact := IsExact(post, present, marker);
      if !exact {
        return Some(NotExact);
      }
      var alive := MarkEffect(post);
      if !alive {
        return Some(Died);
      }
      r := None;
    }

    /** The snapshot is the exact effect, and the live board has its marker once. */
    ghost predicate Confirmed(post: Dict, live: Dict, approval: Approval)
      requires IsBoard(live)
    {
      MarkerCount(live["comments"].items, Marker(approval)) == 1 && Exact(signed, post, Marker(approval))
    }

    /** The effect is marked: the board is looked at once more, and the effect acknowledged. */
    method Confirm(approval: Approval, gaps: Gaps) returns (r: Result)
      requires Valid() && intent.Some? && intent.value.approval == approval && intent.value.status != Acknowledged
      modifies this`root, this`intent, this`lives
      ensures Valid() && intent.Some? && intent.value.approval == approval
      ensures var post := ActedAll(old(root), gaps.afterMark);
        StatusOf(post) != Str("ready") ==> r == Err(WrongState) && root == post && intent == old(intent)
      ensures var post := ActedAll(old(root), gaps.afterMark);
        StatusOf(post) == Str("ready") ==>
          && root == ActedAll(post, gaps.beforeAck)
          && (!Confirmed(post, root, approval) ==> r == Err(NotExact) && intent == old(intent))
          && (Confirmed(post, root, approval) ==>
                if old(lives) == 0 then r == Err(Died) && intent == old(intent)
                else r == Ok(post) && intent == Some(old(intent).value.(status := Acknowledged, post := Some(post))))
      ensures gaps == QUIET && old(Undisturbed(approval)) ==> Undisturbed(approval)
      ensures gaps == QUIET && old(Undisturbed(approval)) && unblocks == 1 && old(lives) >= 1 ==> r.Ok?
    {
      hide Exact, OnlyMarker, MarkerCount, Effected, IsAuthority, PyEq, Marker, StatusOf;
      if unblocks == 1 && Undisturbed(approval) {
        var e :| Clean(e) && root == Effected(signed, e, Marker(approval));
        CleanEffectIsExact(signed, e, Marker(approval));
      }
      var marker := Marker(approval);
      Others(gaps.afterMark);
      var post := root;
      if StatusOf(post) != Str("ready") {
        return Err(WrongState);
      }
      Others(gaps.beforeAck);
      var present := MarkerPresent(marker);
      var exact := IsExact(post, present, marker);
      if !exact {
        return Err(NotExact);
      }
      ExactHasOneMarker(signed, post, root, marker);
      r := Acknowledge(post);
    }
  }

  datatype Turn =
    | Run(approval: Approval, ready: bool, paused: bool, routed: bool, effect: Effect, gaps: Gaps, lives: nat)
    | Others(acts: seq<Act>)

  function Runs(turns: seq<Turn>): nat {
    if turns == [] then 0 else Runs(turns[..|turns| - 1]) + if turns[|turns| - 1].Run? then 1 else 0
  }

  predicate MayUnblock(turn: Turn, approval: Approval) {
    turn.Run? && turn.ready && turn.paused && turn.routed && turn.approval == approval
  }

  /**
    Over any history of runs, cut off anywhere and asked with any approval, with
    others writing before, between and during them: the board is unblocked at
    most once, and only by a run that was ready, paused and routed; and every run
    that returns returns one snapshot, the signed one plus one marker comment and
    one event.
   */
  method History(release: Release, turns: seq<Turn>) returns (results: seq<Result>)
    requires release.Valid() && release.intent == None
    modifies release
    ensures release.Valid() && release.unblocks <= 1 && |results| == Runs(turns)
    ensures release.unblocks == 1 ==>
      release.intent.Some? && exists k :: 0 <= k < |turns| && MayUnblock(turns[k], release.intent.value.approval)
    ensures forall i :: 0 <= i < |results| && results[i].Ok? ==>
      && release.intent.Some? && release.intent.value.post == Some(results[i].post)
      && Exact(release.signed, results[i].post, release.Marker(release.intent.value.approval))
      && OnlyMarker(results[i].post, release.Marker(release.intent.value.approval))
  {
    results := [];
    for i := 0 to |turns|
      invariant release.Valid() && |results| == Runs(turns[..i])
      invariant release.unblocks == 1 ==>
        release.intent.Some? && exists k :: 0 <= k < i && MayUnblock(turns[k], release.intent.value.approval)
      invariant forall k :: 0 <= k < |results| && results[k].Ok? ==>
        release.intent.Some? && release.intent.value.status == Acknowledged && release.intent.value.post == Some(results[k].post)
    {
      hide Exact, OnlyMarker, MarkerCount, PyEq, StatusOf;
      assert turns[..i + 1][..i] == turns[..i];
      match turns[i]
      case Run(approval, ready, paused, routed, effect, gaps, lives) =>
        release.lives := lives;
        var r := release.Activate(approval, ready, paused, routed, effect, gaps);
        assert release.unblocks > 0 ==> MayUnblock(turns[i], release.intent.value.approval) || exists k :: 0 <= k < i && MayUnblock(turns[k], release.intent.value.approval);
        results := results + [r];
      case Others(acts) => release.Others(acts);
    }
    assert turns[..|turns|] == turns;
  }

  /** When nobody else writes, runs cut off anywhere are made good by one that is not. */
  method RunUntilDone(release: Release, approval: Approval, cut: seq<(Effect, nat)>, last: Effect) returns (post: Dict)
    requires release.Valid() && release.intent == None && release.Undisturbed(approval)
    requires (forall i :: 0 <= i < |cut| ==> Clean(cut[i].0) || cut[i].0.Nothing?) && Clean(last)
    modifies release
    ensures release.Valid() && release.Undisturbed(approval) && release.unblocks == 1
    ensures release.intent.Some? && release.intent.value.status == Acknowledged && release.intent.value.post == Some(post)
    ensures Exact(release.signed, post, release.Marker(approval))
  {
    for i := 0 to |cut|
      invariant release.Valid() && release.Undisturbed(approval)
    {
      hide Exact, OnlyMarker;
      release.lives := cut[i].1;
      var r := release.Activate(approval, true, true, true, cut[i].0, QUIET);
    }
    release.lives := 4;
    var r := release.Activate(approval, true, true, true, last, QUIET);
    post := r.post;
  }
}
