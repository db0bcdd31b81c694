/**
  The handoff text put in front of a card's body, and what both readers make of
  the card with it there.
 */
module ExecutionHandoff {
  import opened Options
  import opened CardFraming

  predicate IsPlain(s: string) {
    '`' !in s && '<' !in s
  }

  /** Text without a tick and without an angle bracket. */
  type Plain = s: string | IsPlain(s)

  function Joined(pieces: seq<Plain>): Plain {
    if pieces == [] then "" else Joined(pieces[..|pieces| - 1]) + pieces[|pieces| - 1]
  }

  // ----- The text, a few words at a time -----

  const Ownership: seq<Plain> := ["Local First ", "owns ", "validation, ", "review, ", "integration, "]

  const Completion: seq<Plain> := ["and final ", "completion ", "for this task."]

  const Work: seq<Plain> := ["Implement and ", "test the ", "contract "]

  const Workspace: seq<Plain> := ["in the ", "assigned ", "workspace. "]

  const Ready: seq<Plain> := ["When ", "implementation ", "is ready for "]

  const Awaited: seq<Plain> := ["Local First ", "validation, "]

  const Move: seq<Plain> := ["move this ", "Hermes task ", "to Review ", "with "]

  const HandoffOnly: seq<Plain> := ["Review is an ", "implementation ", "handoff only: "]

  const Unclaimed: seq<Plain> := ["do not claim ", "that Local ", "First ", "validation, "]

  const Independent: seq<Plain> := ["independent ", "review, "]

  const NorPassed: seq<Plain> := ["integration, ", "or final ", "completion ", "has passed."]

  const Accident: seq<Plain> := ["If the task ", "is ", "accidentally "]

  const MarkedDone: seq<Plain> := ["marked Done ", "instead, "]

  const Recovered: seq<Plain> := ["Local First ", "will treat ", "that only as "]

  const Handoff: seq<Plain> := ["a recoverable ", "implementation ", "handoff "]

  const Gates: seq<Plain> := ["and will ", "still run its ", "own ", "validation ", "and review ", "gates."]

  const Legacy: seq<Plain> := ["Legacy ", "recovery ", "marker: "]

  const Command: seq<Plain> := ["hermes kanban ", "request-review"]

  const Sentinel: seq<Plain> := ["local-first-", "awaiting-", "reconciliation"]

  /** From the marker to the command, which stands between ticks. */
  function Opening(): Plain {
    "\n" + Joined(Ownership) + Joined(Completion) + "\n" + Joined(Work) + Joined(Workspace)
    + Joined(Ready) + Joined(Awaited) + Joined(Move)
  }

  function ReviewLine(): Plain {
    Joined(HandoffOnly) + Joined(Unclaimed) + Joined(Independent) + Joined(NorPassed) + "\n"
  }

  function AccidentLine(): Plain {
    Joined(Accident) + Joined(MarkedDone) + Joined(Recovered) + Joined(Handoff) + Joined(Gates) + "\n"
  }

  const EndOfLine: Plain := ".\n"

  /** From there to the sentinel, which does too. */
  function Middle(): Plain {
    EndOfLine + ReviewLine() + AccidentLine() + Joined(Legacy)
  }

  function Instructions(): string {
    HANDOFF_MARKER + AfterMarker()
  }

  // ----- It does not get in the way -----

  ghost predicate NoTwoTicks(s: string) {
    forall i, j :: 0 <= i < j < |s| && j == i + 1 ==> !(s[i] == '`' && s[j] == '`')
  }

  /** Plain parts with a tick between each two. */
  function Ticked(parts: seq<Plain>): string {
    if parts == [] then "" else if |parts| == 1 then parts[0] else parts[0] + ("`" + Ticked(parts[1..]))
  }

  /** As long as no part is empty no two ticks meet. */
  lemma {:induction false} TicksStandAlone(parts: seq<Plain>)
    requires forall k :: 0 <= k < |parts| ==> parts[k] != ""
    ensures NoTwoTicks(Ticked(parts)) && '<' !in Ticked(parts)
    ensures parts != [] ==> Ticked(parts) != "" && Ticked(parts)[0] != '`'
    decreases |parts|
  {
    if parts != [] {
      var first := parts[0];
      forall i | 0 <= i < |first| ensures first[i] != '`' {
        assert first[i] in first;
      }
      if |parts| > 1 {
        TicksStandAlone(parts[1..]);
      }
    }
  }

  /** What follows the handoff marker. */
  function AfterMarker(): string {
    Ticked([Opening(), Joined(Command), Middle(), Joined(Sentinel), EndOfLine])
  }

  lemma PiecesAreThere()
    ensures Joined(Command) != "" && Joined(Sentinel) != "" && Middle() != "" && Opening() != ""
  {
  }

  lemma AfterMarkerIsPlain()
    ensures NoTwoTicks(AfterMarker()) && '<' !in AfterMarker()
  {
    hide Opening, Middle, Joined, Ticked, NoTwoTicks;
    PiecesAreThere();
    TicksStandAlone([Opening(), Joined(Command), Middle(), Joined(Sentinel), EndOfLine]);
  }

  lemma HandoffMarkerHasNoTick()
    ensures '`' !in HANDOFF_MARKER
  {
  }

  lemma HandoffMarkerHasOneAngle()
    ensures forall k :: 0 < k < |HANDOFF_MARKER| ==> HANDOFF_MARKER[k] != '<'
  {
  }

  lemma MarkersPart()
    ensures |HANDOFF_MARKER| > 17 && |MARKER| > 17 && MARKER[0] == '<' && HANDOFF_MARKER[17] != MARKER[17]
  {
  }

  lemma NoTicksInFront(front: string, rest: string)
    requires '`' !in front && NoTwoTicks(rest)
    ensures NoTwoTicks(front + rest) && NoTwoTicks(rest + "\n")
  {
    forall i | 0 <= i < |front| ensures front[i] != '`' {
      assert front[i] in front;
    }
  }

  lemma CharDiffers(p: string, s: string, i: nat, k: nat)
    requires k < |p| && (i + k < |s| ==> s[i + k] != p[k])
    ensures !Occurs(p, s, i)
  {
    if Occurs(p, s, i) {
      OccursChars(p, s, i);
    }
  }

  /** The marker of the card begins like that of the handoff, and only there is an angle bracket. */
  lemma NoCardMarker(rest: string)
    requires '<' !in rest
    ensures !Contains(MARKER, HANDOFF_MARKER + rest)
  {
    HandoffMarkerHasOneAngle();
    MarkersPart();
    var s := HANDOFF_MARKER + rest;
    forall i: nat ensures !Occurs(MARKER, s, i) {
      if |HANDOFF_MARKER| <= i < |s| {
        assert s[i] == rest[i - |HANDOFF_MARKER|] && s[i] in rest;
      }
      CharDiffers(MARKER, s, i, if i == 0 then 17 else 0);
    }
  }

  /** The text as it stands in front of a body: its own marker, not the card's, and no fence. */
  lemma InstructionsFit()
    ensures Contains(HANDOFF_MARKER, Instructions()) && PreOk(Instructions() + "\n")
  {
    hide AfterMarker;
    AfterMarkerIsPlain();
    HandoffMarkerHasNoTick();
    var rest := AfterMarker() + "\n";
    NoTicksInFront(HANDOFF_MARKER, AfterMarker());
    NoTicksInFront(HANDOFF_MARKER, rest);
    NoCardMarker(rest);
    var s := Instructions() + "\n";
    assert s == HANDOFF_MARKER + rest;
    forall i: nat ensures !Occurs(TICKS, s, i) {
      TicksAt(s, i);
    }
    assert Occurs(HANDOFF_MARKER, Instructions(), 0);
  }

  /** A generated card with the handoff text attached, and both readers: neither is disturbed by it. */
  lemma AttachedCardReads(e: string)
    requires Closed(e)
    requires !Contains(MARKER, e) && !Contains(NATIVE, e) && !Contains(ESCAPED, e) && !Contains(ESCAPED_END, e)
    ensures var body := Attach(Instructions(), EscapedBody("", e));
      && WorkerReads(body) == ControllerReads(body) == Some(e)
      && Attach(Instructions(), body) == body
  {
    hide Instructions;
    InstructionsFit();
    AttachedReads(Instructions(), e);
  }
}
