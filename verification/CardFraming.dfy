/**
  How a ticket's contract is framed in the body of a board card, and how the
  projection worker and the controller get it out again. A contract is here the
  text that is encoded and handed to the JSON reader.
 */
module CardFraming {
  import opened Options

  const MARKER := "<!-- local-first-orchestrator -->"
  /** A fence that ends in a line break, and one that ends in a backslash and an n. */
  const NATIVE := "```local-first-contract\n"
  const ESCAPED := "```local-first-contract\\n"
  const TICKS := "```"
  const NATIVE_END := "\n```"
  const ESCAPED_END := "\\n```"
  const HANDOFF_MARKER := "<!-- local-first-execution-handoff:v1 -->"

  // ----- Finding text in text -----

  predicate Occurs(p: string, s: string, i: nat) {
    i + |p| <= |s| && s[i..i + |p|] == p
  }

  ghost predicate Contains(p: string, s: string) {
    exists i: nat :: Occurs(p, s, i)
  }

  lemma OccursShifted(p: string, s: string, i: nat)
    requires s != ""
    ensures Occurs(p, s, i + 1) <==> Occurs(p, s[1..], i)
  {
    if i + 1 + |p| <= |s| {
      assert s[i + 1..i + 1 + |p|] == s[1..][i..i + |p|];
    }
  }

  /** Where p first occurs, |s| + 1 if nowhere. */
  function Find(p: string, s: string): (at: nat)
    ensures at <= |s| ==> Occurs(p, s, at)
    ensures forall i: nat :: i < at ==> !Occurs(p, s, i)
    ensures at > |s| ==> at == |s| + 1
    decreases |s|
  {
    if Occurs(p, s, 0) then 0
    else if s == [] then 1
    else
      var at := Find(p, s[1..]);
      OccursShifted(p, s, at);
      assert forall i: nat :: i < at + 1 ==> !Occurs(p, s, i) by {
        forall i: nat | 0 < i < at + 1 ensures !Occurs(p, s, i) {
          OccursShifted(p, s, i - 1);
        }
      }
      at + 1
  }

  predicate Has(p: string, s: string) {
    Find(p, s) <= |s|
  }

  lemma HasIffContains(p: string, s: string)
    ensures Has(p, s) <==> Contains(p, s)
  {
    if Has(p, s) {
      assert Occurs(p, s, Find(p, s));
    } else {
      forall i: nat ensures !Occurs(p, s, i) {
        if i > |s| {
          assert i + |p| > |s|;
        }
      }
    }
  }

  /** str.count: occurrences one after another from the left. */
  function Count(p: string, s: string): nat
    requires p != ""
    decreases |s|
  {
    if !Has(p, s) then 0 else 1 + Count(p, s[Find(p, s) + |p|..])
  }

  /** split(p, 1)[1], where p occurs. */
  function AfterFirst(p: string, s: string): string
    requires Has(p, s)
  {
    s[Find(p, s) + |p|..]
  }

  /** split(p, 1)[0]. */
  function BeforeFirst(p: string, s: string): string {
    if Has(p, s) then s[..Find(p, s)] else s
  }

  // ----- The two bodies and the two readers -----

  /** The body of a generated card: its separators are a backslash and an n. */
  function EscapedBody(pre: string, e: string): string {
    pre + MARKER + "\\n" + ESCAPED + e + ESCAPED_END
  }

  /** The body of a triage card: its separators are line breaks. */
  function NativeBody(pre: string, e: string): string {
    pre + MARKER + "\n" + NATIVE + e + NATIVE_END
  }

  /** attach_execution_handoff. */
  function Attach(handoff: string, body: string): string {
    if Has(HANDOFF_MARKER, body) then body else handoff + "\n" + body
  }

  /** _contract_from_body. */
  function WorkerReads(body: string): Option<string> {
    if Count(MARKER, body) != 1 || Count(NATIVE, body) + Count(ESCAPED, body) != 1 then None
    else if Has(NATIVE, body) then Some(BeforeFirst(NATIVE_END, AfterFirst(NATIVE, body)))
    else if Has(ESCAPED, body) then Some(BeforeFirst(ESCAPED_END, AfterFirst(ESCAPED, body)))
    else None
  }

  /** _card_contract_payload. */
  function ControllerReads(body: string): Option<string> {
    if !Has(MARKER, body) then None
    else if Has(NATIVE, body) then Some(BeforeFirst(TICKS, AfterFirst(NATIVE, body)))
    else if Has(ESCAPED, body) then Some(BeforeFirst(ESCAPED_END, AfterFirst(ESCAPED, body)))
    else None
  }

  /** What stands before the marker: nothing, or text with a line break at its end and neither the marker nor a fence in it. */
  ghost predicate PreOk(pre: string) {
    pre == "" || (pre[|pre| - 1] == '\n' && !Contains(MARKER, pre) && !Contains(TICKS, pre))
  }

  /** An encoded object ends with its brace. */
  predicate Closed(e: string) {
    e != "" && e[|e| - 1] == '}'
  }

  /** A card without the marker is nobody's contract, whatever fences are in it; nor is one without a fence. */
  lemma OtherCardsAreNotRead(body: string)
    requires !Contains(MARKER, body) || (!Contains(NATIVE, body) && !Contains(ESCAPED, body))
    ensures WorkerReads(body) == None && ControllerReads(body) == None
  {
    HasIffContains(MARKER, body);
    HasIffContains(NATIVE, body);
    HasIffContains(ESCAPED, body);
  }

  // ----- Occurrences in concatenations -----

  lemma OccursLeft(p: string, x: string, y: string, i: nat)
    requires i + |p| <= |x|
    ensures Occurs(p, x + y, i) <==> Occurs(p, x, i)
  {
    assert (x + y)[i..i + |p|] == x[i..i + |p|];
  }

  lemma OccursRight(p: string, x: string, y: string, i: nat)
    requires i >= |x|
    ensures Occurs(p, x + y, i) <==> Occurs(p, y, i - |x|)
  {
    if i + |p| <= |x| + |y| {
      assert (x + y)[i..i + |p|] == y[i - |x|..i - |x| + |p|];
    }
  }

  lemma OccursChars(p: string, s: string, i: nat)
    requires Occurs(p, s, i)
    ensures forall k :: i <= k < i + |p| ==> s[k] == p[k - i]
  {
    forall k | i <= k < i + |p| ensures s[k] == p[k - i] {
      assert s[i..i + |p|][k - i] == s[k];
    }
  }

  lemma TicksAt(s: string, i: nat)
    ensures Occurs(TICKS, s, i) <==> i + 3 <= |s| && s[i] == '`' && s[i + 1] == '`' && s[i + 2] == '`'
  {
    if Occurs(TICKS, s, i) {
      OccursChars(TICKS, s, i);
    } else if i + 3 <= |s| {
      assert s[i..i + 3] == [s[i], s[i + 1], s[i + 2]];
    }
  }

  /** An occurrence does not run over a character it lacks. */
  lemma NoStraddle(p: string, x: string, y: string, i: nat)
    requires x != "" && x[|x| - 1] !in p && Occurs(p, x + y, i) && i < |x|
    ensures i + |p| <= |x| && Occurs(p, x, i)
  {
    OccursChars(p, x + y, i);
    assert (x + y)[|x| - 1] == x[|x| - 1];
    assert i + |p| <= |x|;
    OccursLeft(p, x, y, i);
  }

  lemma FindIs(p: string, s: string, at: nat)
    requires Occurs(p, s, at) && forall i: nat :: i < at ==> !Occurs(p, s, i)
    ensures Find(p, s) == at && Has(p, s)
  {
    assert at < Find(p, s) ==> !Occurs(p, s, at);
  }

  /** What the terminator cuts off is the contract exactly when the terminator is not in it. */
  lemma CutIffAbsent(p: string, e: string)
    requires e != "" && p != "" && e[|e| - 1] !in p
    ensures BeforeFirst(p, e + p) == e <==> !Contains(p, e)
    ensures |BeforeFirst(p, e + p)| <= |e|
  {
    var s := e + p;
    assert s[|e|..|e| + |p|] == p;
    assert Occurs(p, s, |e|);
    if Contains(p, e) {
      var i: nat :| Occurs(p, e, i);
      OccursLeft(p, e, p, i);
      assert i < |e|;
      assert Find(p, s) <= i;
    } else {
      forall i: nat | i < |e| ensures !Occurs(p, s, i) {
        if Occurs(p, s, i) {
          NoStraddle(p, e, p, i);
        }
      }
      FindIs(p, s, |e|);
      assert s[..|e|] == e;
    }
  }

  // ----- The framed body -----

  function Body(pre: string, sep: string, fence: string, e: string, end: string): string {
    pre + MARKER + sep + fence + e + end
  }

  /** Three ticks, and no tick after them; no brace, no angle bracket. */
  predicate IsFence(f: string) {
    |f| >= 24 && f[0] == '`' && f[1] == '`' && f[2] == '`' && (forall i :: 3 <= i < |f| ==> f[i] != '`') && '}' !in f && '<' !in f
  }

  predicate IsSep(s: string) {
    '`' !in s && '<' !in s
  }

  predicate IsEnd(s: string) {
    s != "" && '}' !in s && '<' !in s && |s| < 24
  }

  lemma Shapes()
    ensures IsFence(NATIVE) && IsFence(ESCAPED) && |NATIVE| == 24 && |ESCAPED| == 25 && NATIVE[23] != ESCAPED[23]
    ensures IsSep("\n") && IsSep("\\n") && IsEnd(NATIVE_END) && IsEnd(ESCAPED_END) && IsEnd(TICKS)
  {
  }

  lemma MarkerShape()
    ensures |MARKER| > 1 && MARKER[0] == '<' && (forall i :: 0 < i < |MARKER| ==> MARKER[i] != '<')
    ensures '`' !in MARKER && '}' !in MARKER && '\n' !in MARKER
  {
  }

  /** A fence occurs at the end of the head and after the fence there, nowhere before. */
  lemma FenceOnlyThere(pre: string, sep: string, fence: string, rest: string, other: string, i: nat)
    requires PreOk(pre) && IsSep(sep) && IsFence(fence) && IsFence(other)
    requires Occurs(other, pre + MARKER + sep + (fence + rest), i) && i < |pre + MARKER + sep| + |fence|
    ensures i == |pre + MARKER + sep|
  {
    MarkerShape();
    var head := pre + MARKER + sep;
    var s := head + (fence + rest);
    OccursChars(other, s, i);
    assert s[i] == '`' && s[i + 1] == '`' && s[i + 2] == '`';
    forall k | |pre| <= k < |head| ensures s[k] != '`' {
      assert s[k] == (MARKER + sep)[k - |pre|];
    }
    forall k | |head| + 3 <= k < |head| + |fence| ensures s[k] != '`' {
      assert s[k] == fence[k - |head|];
    }
    forall j: nat | j + 3 <= |pre| ensures s[j] != '`' || s[j + 1] != '`' || s[j + 2] != '`' {
      TicksAt(pre, j);
      assert s[j] == pre[j] && s[j + 1] == pre[j + 1] && s[j + 2] == pre[j + 2];
    }
  }

  lemma InContractOnly(p: string, e: string, end: string)
    requires Closed(e) && '}' !in p && |end| < |p|
    ensures Contains(p, e + end) <==> Contains(p, e)
  {
    if Contains(p, e + end) {
      var i: nat :| Occurs(p, e + end, i);
      NoStraddle(p, e, end, i);
    }
    if Contains(p, e) {
      var i: nat :| Occurs(p, e, i);
      OccursLeft(p, e, end, i);
    }
  }

  lemma Middle(x: string, y: string, z: string)
    ensures (x + (y + z))[|x|..|x| + |y|] == y && (x + (y + z))[|x| + |y|..] == z
    ensures Occurs(y, x + (y + z), |x|)
  {
  }

  lemma NoFenceBefore(pre: string, sep: string, fence: string, rest: string, i: nat)
    requires PreOk(pre) && IsSep(sep) && IsFence(fence) && i < |pre + MARKER + sep|
    ensures !Occurs(fence, pre + MARKER + sep + (fence + rest), i)
  {
    if Occurs(fence, pre + MARKER + sep + (fence + rest), i) {
      FenceOnlyThere(pre, sep, fence, rest, fence, i);
    }
  }

  lemma FirstFence(pre: string, sep: string, fence: string, rest: string)
    requires PreOk(pre) && IsSep(sep) && IsFence(fence)
    ensures var s := pre + MARKER + sep + (fence + rest);
      Find(fence, s) == |pre + MARKER + sep| && Has(fence, s) && s[|pre + MARKER + sep| + |fence|..] == rest
  {
    hide *;
    var head := pre + MARKER + sep;
    Middle(head, fence, rest);
    forall i: nat | i < |head| ensures !Occurs(fence, head + (fence + rest), i) {
      NoFenceBefore(pre, sep, fence, rest, i);
    }
    FindIs(fence, head + (fence + rest), |head|);
  }

  lemma BodyIsHeadAndRest(pre: string, sep: string, fence: string, e: string, end: string)
    ensures Body(pre, sep, fence, e, end) == pre + MARKER + sep + (fence + (e + end))
    ensures Body(pre, sep, fence, e, end) == pre + (MARKER + (sep + fence + (e + end)))
  {
  }

  lemma OwnFence(pre: string, sep: string, fence: string, e: string, end: string)
    requires PreOk(pre) && IsSep(sep) && IsFence(fence) && Closed(e) && IsEnd(end)
    ensures var s := Body(pre, sep, fence, e, end);
      && Has(fence, s) && AfterFirst(fence, s) == e + end
      && (Count(fence, s) == 1 <==> !Contains(fence, e)) && Count(fence, s) >= 1
  {
    var s := Body(pre, sep, fence, e, end);
    BodyIsHeadAndRest(pre, sep, fence, e, end);
    assert '}' !in fence && |end| < |fence|;
    hide Body, PreOk, IsSep, IsFence, Find, Occurs, Contains;
    FirstFence(pre, sep, fence, e + end);
    InContractOnly(fence, e, end);
    HasIffContains(fence, e + end);
  }

  lemma OtherFenceInRest(pre: string, sep: string, fence: string, rest: string, other: string, i: nat)
    requires PreOk(pre) && IsSep(sep) && IsFence(fence) && IsFence(other) && fence[23] != other[23]
    requires Occurs(other, pre + MARKER + sep + (fence + rest), i)
    ensures i >= |pre + MARKER + sep + fence| && Occurs(other, rest, i - |pre + MARKER + sep + fence|)
  {
    var head := pre + MARKER + sep;
    var s := head + (fence + rest);
    OccursChars(other, s, i);
    assert s[|head| + 23] == fence[23];
    if i < |head| + |fence| {
      FenceOnlyThere(pre, sep, fence, rest, other, i);
    } else {
      assert s == (head + fence) + rest;
      OccursRight(other, head + fence, rest, i);
    }
  }

  lemma OtherFence(pre: string, sep: string, fence: string, e: string, end: string, other: string)
    requires PreOk(pre) && IsSep(sep) && IsFence(fence) && IsFence(other) && Closed(e) && IsEnd(end) && fence[23] != other[23]
    ensures Has(other, Body(pre, sep, fence, e, end)) <==> Contains(other, e)
    ensures Has(other, Body(pre, sep, fence, e, end)) ==> |AfterFirst(other, Body(pre, sep, fence, e, end))| < |e| + |end| - 20
  {
    var head := pre + MARKER + sep;
    var s := Body(pre, sep, fence, e, end);
    var rest := e + end;
    assert s == head + (fence + rest) && s == (head + fence) + rest;
    hide Body, PreOk, IsSep, Occurs, Find;
    InContractOnly(other, e, end);
    HasIffContains(other, s);
    if Has(other, s) {
      OtherFenceInRest(pre, sep, fence, rest, other, Find(other, s));
    }
    if Contains(other, rest) {
      var i: nat :| Occurs(other, rest, i);
      OccursRight(other, head + fence, rest, i + |head + fence|);
    }
  }

  lemma NoMarkerBefore(pre: string, tail: string, i: nat)
    requires PreOk(pre) && i < |pre|
    ensures !Occurs(MARKER, pre + (MARKER + tail), i)
  {
    MarkerShape();
    if Occurs(MARKER, pre + (MARKER + tail), i) {
      NoStraddle(MARKER, pre, MARKER + tail, i);
    }
  }

  lemma OwnMarker(pre: string, sep: string, fence: string, e: string, end: string)
    requires PreOk(pre) && IsSep(sep) && IsFence(fence) && Closed(e) && IsEnd(end)
    ensures var s := Body(pre, sep, fence, e, end);
      Has(MARKER, s) && (Count(MARKER, s) == 1 <==> !Contains(MARKER, e))
  {
    BodyIsHeadAndRest(pre, sep, fence, e, end);
    var tail := sep + fence + (e + end);
    MarkerAfter(sep + fence, e, end);
    hide Body, PreOk, IsSep, IsFence, Find, Occurs, Contains, Closed, IsEnd;
    Middle(pre, MARKER, tail);
    forall i: nat | i < |pre| ensures !Occurs(MARKER, pre + (MARKER + tail), i) {
      NoMarkerBefore(pre, tail, i);
    }
    FindIs(MARKER, pre + (MARKER + tail), |pre|);
    HasIffContains(MARKER, tail);
  }

  /** Past the head, the marker can only be in the contract. */
  lemma MarkerAfter(mid: string, e: string, end: string)
    requires '<' !in mid && Closed(e) && IsEnd(end)
    ensures Contains(MARKER, mid + (e + end)) <==> Contains(MARKER, e)
  {
    MarkerShape();
    var tail := mid + (e + end);
    if Contains(MARKER, tail) {
      var i: nat :| Occurs(MARKER, tail, i);
      assert tail[i..i + |MARKER|][0] == tail[i] == '<';
      assert i >= |mid|;
      OccursRight(MARKER, mid, e + end, i);
      forall k | |e| <= k < |e + end| ensures (e + end)[k] != '<' {
        assert (e + end)[k] == end[k - |e|];
      }
      NoStraddle(MARKER, e, end, i - |mid|);
    }
    if Contains(MARKER, e) {
      var i: nat :| Occurs(MARKER, e, i);
      OccursLeft(MARKER, e, end, i);
      OccursRight(MARKER, mid, e + end, i + |mid|);
      assert Occurs(MARKER, tail, i + |mid|);
    }
  }

  // ----- What the readers get back -----

  /** From a generated card the worker gets the contract back exactly when its encoding holds no marker, no fence and no terminator. */
  lemma WorkerReadsEscaped(pre: string, e: string)
    requires PreOk(pre) && Closed(e)
    ensures WorkerReads(EscapedBody(pre, e)) == Some(e) <==>
      !Contains(MARKER, e) && !Contains(NATIVE, e) && !Contains(ESCAPED, e) && !Contains(ESCAPED_END, e)
  {
    Shapes();
    OwnMarker(pre, "\\n", ESCAPED, e, ESCAPED_END);
    OwnFence(pre, "\\n", ESCAPED, e, ESCAPED_END);
    OtherFence(pre, "\\n", ESCAPED, e, ESCAPED_END, NATIVE);
    CutIffAbsent(ESCAPED_END, e);
    assert EscapedBody(pre, e) == Body(pre, "\\n", ESCAPED, e, ESCAPED_END);
    hide Body, EscapedBody, BeforeFirst, AfterFirst, Has, Occurs;
  }

  /** The controller does not count, so for it a marker or an escaped fence inside does no harm. */
  lemma ControllerReadsEscaped(pre: string, e: string)
    requires PreOk(pre) && Closed(e)
    ensures ControllerReads(EscapedBody(pre, e)) == Some(e) <==> !Contains(NATIVE, e) && !Contains(ESCAPED_END, e)
  {
    Shapes();
    OwnMarker(pre, "\\n", ESCAPED, e, ESCAPED_END);
    OwnFence(pre, "\\n", ESCAPED, e, ESCAPED_END);
    OtherFence(pre, "\\n", ESCAPED, e, ESCAPED_END, NATIVE);
    CutIffAbsent(ESCAPED_END, e);
    assert EscapedBody(pre, e) == Body(pre, "\\n", ESCAPED, e, ESCAPED_END);
    hide Body, EscapedBody, AfterFirst, Has, Occurs;
  }

  lemma WorkerReadsNative(pre: string, e: string)
    requires PreOk(pre) && Closed(e)
    ensures WorkerReads(NativeBody(pre, e)) == Some(e) <==>
      !Contains(MARKER, e) && !Contains(NATIVE, e) && !Contains(ESCAPED, e) && !Contains(NATIVE_END, e)
  {
    Shapes();
    OwnMarker(pre, "\n", NATIVE, e, NATIVE_END);
    OwnFence(pre, "\n", NATIVE, e, NATIVE_END);
    OtherFence(pre, "\n", NATIVE, e, NATIVE_END, ESCAPED);
    CutIffAbsent(NATIVE_END, e);
    HasIffContains(ESCAPED, NativeBody(pre, e));
    assert NativeBody(pre, e) == Body(pre, "\n", NATIVE, e, NATIVE_END);
    hide Body, NativeBody, BeforeFirst, AfterFirst, Has, Occurs;
  }

  lemma NativeEndIsBreakAndTicks(e: string)
    requires Closed(e)
    ensures BeforeFirst(TICKS, e + NATIVE_END) == e + "\n" <==> !Contains(TICKS, e)
  {
    assert e + NATIVE_END == (e + "\n") + TICKS;
    CutIffAbsent(TICKS, e + "\n");
    InContractOnly(TICKS, e, "\n");
  }

  /**
    The controller ends a triage card's contract at the first three ticks: it
    gets it back, with the line break the reader of JSON skips, exactly when the
    encoding holds no three ticks.
   */
  lemma ControllerReadsNative(pre: string, e: string)
    requires PreOk(pre) && Closed(e)
    ensures ControllerReads(NativeBody(pre, e)) == Some(e + "\n") <==> !Contains(TICKS, e)
  {
    Shapes();
    OwnMarker(pre, "\n", NATIVE, e, NATIVE_END);
    OwnFence(pre, "\n", NATIVE, e, NATIVE_END);
    NativeEndIsBreakAndTicks(e);
    assert NativeBody(pre, e) == Body(pre, "\n", NATIVE, e, NATIVE_END);
    hide Body, NativeBody, BeforeFirst, AfterFirst, Has, Occurs;
  }

  /** A contract with three ticks in a string. */
  const TICKED := "{\"a\":\"```\"}"

  lemma TickedShape()
    ensures Closed(TICKED) && |TICKED| == 11 && Occurs(TICKS, TICKED, 6) && '\n' !in TICKED
  {
    TicksAt(TICKED, 6);
  }

  /** On a triage card the worker reads it, and the controller does not. */
  lemma ReadersDisagree(pre: string)
    requires PreOk(pre)
    ensures WorkerReads(NativeBody(pre, TICKED)) == Some(TICKED)
    ensures ControllerReads(NativeBody(pre, TICKED)) != Some(TICKED + "\n")
  {
    hide NativeBody, WorkerReads, ControllerReads, PreOk, TICKED;
    TickedShape();
    Shapes();
    LongMarker();
    forall i: nat ensures !Occurs(NATIVE_END, TICKED, i) {
      if Occurs(NATIVE_END, TICKED, i) {
        OccursChars(NATIVE_END, TICKED, i);
        BreakFirst();
      }
    }
    WorkerReadsNative(pre, TICKED);
    ControllerReadsNative(pre, TICKED);
  }

  lemma LongMarker()
    ensures |MARKER| > 11
  {
  }

  lemma BreakFirst()
    ensures |NATIVE_END| > 0 && NATIVE_END[0] == '\n'
  {
  }

  /** A generated card with a handoff text attached, and both readers: neither is disturbed by it. */
  lemma AttachedReads(handoff: string, e: string)
    requires Contains(HANDOFF_MARKER, handoff) && PreOk(handoff + "\n") && Closed(e)
    requires !Contains(MARKER, e) && !Contains(NATIVE, e) && !Contains(ESCAPED, e) && !Contains(ESCAPED_END, e)
    ensures var body := Attach(handoff, EscapedBody("", e));
      && WorkerReads(body) == ControllerReads(body) == Some(e)
      && Attach(handoff, body) == body
  {
    hide *;
    var pre := AttachedIsEscaped(handoff, e);
    WorkerReadsEscaped(pre, e);
    ControllerReadsEscaped(pre, e);
    AttachIsIdempotent(handoff, EscapedBody("", e));
  }

  /** A card with the text attached is a card, with the text before its marker. */
  lemma AttachedIsEscaped(handoff: string, e: string) returns (pre: string)
    requires PreOk(handoff + "\n")
    ensures PreOk(pre) && Attach(handoff, EscapedBody("", e)) == EscapedBody(pre, e)
  {
    hide EscapedBody, Contains, Has;
    pre := if Has(HANDOFF_MARKER, EscapedBody("", e)) then "" else handoff + "\n";
    TextInFront(handoff + "\n", e);
  }

  lemma TextInFront(pre: string, e: string)
    ensures pre + EscapedBody("", e) == EscapedBody(pre, e)
  {
    hide MARKER, ESCAPED, ESCAPED_END;
  }

  lemma AttachIsIdempotent(handoff: string, body: string)
    requires Contains(HANDOFF_MARKER, handoff)
    ensures Attach(handoff, Attach(handoff, body)) == Attach(handoff, body)
  {
    var i: nat :| Occurs(HANDOFF_MARKER, handoff, i);
    OccursLeft(HANDOFF_MARKER, handoff, "\n" + body, i);
    assert handoff + "\n" + body == handoff + ("\n" + body);
    HasIffContains(HANDOFF_MARKER, handoff + "\n" + body);
  }
}
