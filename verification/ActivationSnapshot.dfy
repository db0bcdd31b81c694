/**
  validate_activation_post_snapshot: the snapshot after a release is accepted
  only if it is what unblocking the task makes of the snapshot before.
 */
module ActivationSnapshot {
  import opened Json
  import opened Snapshot

  function MarkerComment(author: string, marker: string, at: int): Value {
    Object(map["author" := Str(author), "body" := Str("UNBLOCK: " + marker), "created_at" := Int(at)])
  }

  function UnblockedEvent(at: int): Value {
    Object(map["kind" := Str("unblocked"), "payload" := Null, "created_at" := Int(at), "run_id" := Null])
  }

  /** A snapshot of a scheduled task, with its histories. */
  predicate IsScheduled(root: Dict) {
    && "task" in root && root["task"].Object? && Get(root["task"].members, "status") == Str("scheduled")
    && "comments" in root && root["comments"].Array?
    && "events" in root && root["events"].Array?
  }

  /** What unblocking does: the task is ready, one comment and one event are added, and nothing else changes. */
  function Unblocked(pre: Dict, comment: Value, event: Value): Dict
    requires IsScheduled(pre)
  {
    pre["task" := Object(pre["task"].members["status" := Str("ready")])]
       ["comments" := Array(pre["comments"].items + [comment])]
       ["events" := Array(pre["events"].items + [event])]
  }

  predicate EndsWith(v: Value, last: Value) {
    v.Array? && v.items != [] && v.items[|v.items| - 1] == last
  }

  /** The snapshot after is what unblocking with this marker makes of the one before. */
  predicate IsUnblock(pre: Dict, post: Dict, marker: string, author: string, commented: int, released: int) {
    && IsScheduled(pre) && Filled(Str(author)) && commented <= released
    && SameDict(Unblocked(pre, MarkerComment(author, marker, commented), UnblockedEvent(released)), post)
    && EndsWith(post["comments"], MarkerComment(author, marker, commented))
    && EndsWith(post["events"], UnblockedEvent(released))
    && REQUIRED <= post.Keys
  }

  /** One item more, and the ones before the same. */
  predicate Appended(prior: Value, later: Value) {
    prior.Array? && later.Array? && |later.items| == |prior.items| + 1 && SameList(later.items[..|prior.items|], prior.items)
  }

  function History(root: Dict): Value {
    if "events" in root then root["events"] else Get(root, "task_events")
  }

  predicate IsMarkerComment(comment: Value, marker: string) {
    && comment.Object? && comment.members.Keys == {"author", "body", "created_at"}
    && comment.members["body"] == Str("UNBLOCK: " + marker) && Filled(comment.members["author"]) && comment.members["created_at"].Int?
  }

  predicate IsUnblockedEvent(event: Value) {
    && event.Object? && event.members.Keys == {"kind", "payload", "created_at", "run_id"}
    && event.members["kind"] == Str("unblocked") && event.members["payload"] == Null && event.members["run_id"] == Null
    && event.members["created_at"].Int?
  }

  lemma MarkerCommentShape(comment: Value, marker: string)
    ensures IsMarkerComment(comment, marker)
      <==> exists author, at :: Filled(Str(author)) && comment == MarkerComment(author, marker, at)
  {
    if IsMarkerComment(comment, marker) {
      var m := comment.members;
      assert comment == MarkerComment(m["author"].text, marker, m["created_at"].number);
    }
  }

  lemma UnblockedEventShape(event: Value)
    ensures IsUnblockedEvent(event) <==> exists at :: event == UnblockedEvent(at)
  {
    if IsUnblockedEvent(event) {
      assert event == UnblockedEvent(event.members["created_at"].number);
    }
  }

  lemma AppendedIff(prior: seq<Value>, later: Value, last: Value)
    ensures PyEq(Array(prior + [last]), later) && EndsWith(later, last)
      <==> Appended(Array(prior), later) && later.items[|prior|] == last
  {
    PyEqReflexive(last);
    var longer := prior + [last];
    if Appended(Array(prior), later) && later.items[|prior|] == last {
      forall i | 0 <= i < |longer| ensures PyEq(longer[i], later.items[i]) {
        if i < |prior| {
          assert later.items[..|prior|][i] == later.items[i];
          PyEqSymmetric(later.items[i], prior[i]);
        }
      }
    } else if PyEq(Array(longer), later) && EndsWith(later, last) {
      forall i | 0 <= i < |prior| ensures PyEq(later.items[..|prior|][i], prior[i]) {
        assert longer[i] == prior[i];
        PyEqSymmetric(longer[i], later.items[i]);
      }
    }
  }

  /** The released task with the later histories in place. */
  function Overwritten(pre: Dict, comments: Value, events: Value): Dict
    requires IsScheduled(pre)
  {
    pre["task" := Object(pre["task"].members["status" := Str("ready")])]["comments" := comments]["events" := events]
  }

  lemma OverwrittenIff(pre: Dict, after: Dict, comment: Value, event: Value)
    requires IsScheduled(pre) && "comments" in after && "events" in after
    ensures SameDict(Unblocked(pre, comment, event), after) <==>
      && SameDict(Overwritten(pre, after["comments"], after["events"]), after)
      && PyEq(Array(pre["comments"].items + [comment]), after["comments"])
      && PyEq(Array(pre["events"].items + [event]), after["events"])
  {
    var wanted, overwritten := Unblocked(pre, comment, event), Overwritten(pre, after["comments"], after["events"]);
    PyEqReflexive(after["comments"]);
    PyEqReflexive(after["events"]);
    assert wanted.Keys == overwritten.Keys;
    assert forall k :: k in wanted && k != "comments" && k != "events" ==> wanted[k] == overwritten[k];
    SameButTwo(wanted, overwritten, after, "comments", "events");
    hide PyEq, SameDict;
  }

  /** Dicts that agree but for two keys, where one of them is as a third: each is the third alike, as far as those keys are. */
  lemma SameButTwo(a: Dict, b: Dict, c: Dict, x: string, y: string)
    requires a.Keys == b.Keys && x in a && y in a && x in c && y in c
    requires forall k :: k in a && k != x && k != y ==> a[k] == b[k]
    requires PyEq(b[x], c[x]) && PyEq(b[y], c[y])
    ensures SameDict(a, c) <==> SameDict(b, c) && PyEq(a[x], c[x]) && PyEq(a[y], c[y])
  {
    if SameDict(a, c) {
      forall k | k in b ensures PyEq(b[k], c[k]) {
        assert PyEq(a[k], c[k]);
      }
    }
    if SameDict(b, c) && PyEq(a[x], c[x]) && PyEq(a[y], c[y]) {
      forall k | k in a ensures PyEq(a[k], c[k]) {
        assert PyEq(b[k], c[k]);
      }
    }
  }

  /** What the validator checks, in terms of what the two histories end with. */
  predicate Passes(pre: Dict, after: Dict, marker: string) {
    && IsScheduled(pre) && REQUIRED <= after.Keys
    && Appended(pre["comments"], after["comments"]) && IsMarkerComment(after["comments"].items[|pre["comments"].items|], marker)
    && Appended(pre["events"], after["events"]) && IsUnblockedEvent(after["events"].items[|pre["events"].items|])
    && after["comments"].items[|pre["comments"].items|].members["created_at"].number <= after["events"].items[|pre["events"].items|].members["created_at"].number
    && SameDict(Overwritten(pre, after["comments"], after["events"]), after)
  }

  lemma PassesGivesUnblock(pre: Dict, after: Dict, marker: string)
    requires Passes(pre, after, marker)
    ensures exists author, commented, released :: IsUnblock(pre, after, marker, author, commented, released)
  {
    var comment, event := after["comments"].items[|pre["comments"].items|], after["events"].items[|pre["events"].items|];
    MarkerCommentShape(comment, marker);
    UnblockedEventShape(event);
    var author, commented :| Filled(Str(author)) && comment == MarkerComment(author, marker, commented);
    var released :| event == UnblockedEvent(released);
    AppendedIff(pre["comments"].items, after["comments"], comment);
    AppendedIff(pre["events"].items, after["events"], event);
    OverwrittenIff(pre, after, comment, event);
    hide PyEq, SameDict, Appended, Unblocked, Overwritten;
    assert IsUnblock(pre, after, marker, author, commented, released);
  }

  lemma UnblockPasses(pre: Dict, after: Dict, marker: string, author: string, commented: int, released: int)
    requires IsUnblock(pre, after, marker, author, commented, released)
    ensures Passes(pre, after, marker)
  {
    var comment, event := MarkerComment(author, marker, commented), UnblockedEvent(released);
    AppendedIff(pre["comments"].items, after["comments"], comment);
    AppendedIff(pre["events"].items, after["events"], event);
    OverwrittenIff(pre, after, comment, event);
    MarkerCommentShape(comment, marker);
    UnblockedEventShape(event);
    hide PyEq, SameDict, Unblocked, Overwritten;
  }

  predicate HasStatus(root: Dict, status: string) {
    "task" in root && root["task"].Object? && "status" in root["task"].members && root["task"].members["status"] == Str(status)
  }

  /**
    The validator: before is the signed snapshot, after the one read from the
    board. It accepts exactly the effect of unblocking with this marker.
   */
  method ValidatePost(pre: Value, post: Value, markerPresent: bool, marker: string) returns (ok: bool)
    ensures ok ==> pre.Object? && post.Object? && markerPresent && marker != ""
    ensures pre.Object? && post.Object? && markerPresent && marker != "" ==>
      (ok <==> exists author, commented, released :: IsUnblock(pre.members, post.members, marker, author, commented, released))
  {
    if !pre.Object? || !post.Object? || !markerPresent || marker == "" {
      return false;
    }
    ok := CheckDelta(pre.members, post.members, marker);
    if ok {
      PassesGivesUnblock(pre.members, post.members, marker);
    } else {
      forall author, commented, released | IsUnblock(pre.members, post.members, marker, author, commented, released) ensures false {
        UnblockPasses(pre.members, post.members, marker, author, commented, released);
      }
    }
  }

  lemma SameDictSameKeys(a: Dict, b: Dict)
    requires SameDict(a, b)
    ensures a.Keys == b.Keys
  {
  }

  lemma PassedIsReady(pre: Dict, after: Dict, marker: string)
    requires Passes(pre, after, marker)
    ensures HasStatus(after, "ready") && IsAuthority(after)
  {
    var wanted := Overwritten(pre, after["comments"], after["events"]);
    assert PyEq(wanted["task"], after["task"]);
    assert PyEq(wanted["task"].members["status"], after["task"].members["status"]);
  }

  method CheckDelta(pre: Dict, post: Dict, marker: string) returns (ok: bool)
    ensures ok <==> Passes(pre, post, marker)
  {
    if Passes(pre, post, marker) {
      PassedIsReady(pre, post, marker);
    }
    hide PyEq;
    var before, after := pre, post;
    if !HasStatus(before, "scheduled") || !HasStatus(after, "ready") {
      return false;
    }
    before := before["task" := Object(before["task"].members["status" := after["task"].members["status"]])];
    if "comments" !in before || "comments" !in after {
      return false;
    }
    var priorEvents, laterEvents := History(before), History(after);
    var laterComments := after["comments"];
    if !Appended(before["comments"], laterComments) {
      return false;
    }
    var comment := laterComments.items[|laterComments.items| - 1];
    if !IsMarkerComment(comment, marker) {
      return false;
    }
    if !Appended(priorEvents, laterEvents) {
      return false;
    }
    var event := laterEvents.items[|laterEvents.items| - 1];
    if !IsUnblockedEvent(event) || event.members["created_at"].number < comment.members["created_at"].number {
      return false;
    }
    before := before["comments" := laterComments];
    var eventKey := if "events" in before then "events" else "task_events";
    before := before[eventKey := laterEvents];
    if !SameDict(before, after) {
      return false;
    }
    SameDictSameKeys(before, after);
    ok := IsAuthority(after);
  }

  /** The validator reads a history under its older name, and yet accepts no snapshot that lacks the newer one. */
  method OlderSpellingIsRefused(pre: Dict, post: Dict, markerPresent: bool, marker: string) returns (ok: bool)
    requires "events" !in pre || "events" !in post
    ensures !ok
  {
    ok := ValidatePost(Object(pre), Object(post), markerPresent, marker);
  }

  /** A snapshot accepted once is not accepted as its own effect: the release shows. */
  lemma EffectIsNotIdle(pre: Dict, post: Dict, marker: string, author: string, commented: int, released: int)
    requires IsUnblock(pre, post, marker, author, commented, released)
    ensures !SameDict(pre, post)
    ensures forall k :: k in pre && k !in {"task", "comments", "events"} ==> k in post && PyEq(pre[k], post[k])
    ensures forall k :: k in pre["task"].members && k != "status"
              ==> post["task"].Object? && k in post["task"].members && PyEq(pre["task"].members[k], post["task"].members[k])
  {
    var wanted := Unblocked(pre, MarkerComment(author, marker, commented), UnblockedEvent(released));
    assert PyEq(wanted["task"], post["task"]) && PyEq(wanted["comments"], post["comments"]);
    forall k | k in pre && k !in {"task", "comments", "events"} ensures k in post && PyEq(pre[k], post[k]) {
      assert k in wanted;
    }
    forall k | k in pre["task"].members && k != "status"
      ensures post["task"].Object? && k in post["task"].members && PyEq(pre["task"].members[k], post["task"].members[k])
    {
      assert k in wanted["task"].members;
    }
    assert |post["comments"].items| == |pre["comments"].items| + 1;
    assert SameDict(pre, post) ==> PyEq(pre["comments"], post["comments"]);
  }
}
