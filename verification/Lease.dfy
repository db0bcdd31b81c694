/**
  Leases counted in whole seconds over work timed in real ones. A worker reads
  the clock, claims until the second it read plus the lease, and then makes its
  calls, which end within a span of time.
 */
module Lease {

  /** However the clock is cut off, the lease outlasts the span: exactly when it is a second longer. */
  lemma LeaseCovers(lease: int, span: real)
    ensures (forall read: real :: read + span < (read.Floor + lease) as real) <==> lease as real >= span + 1.0
  {
    if lease as real < span + 1.0 {
      var read := LateRead(lease, span);
      assert !(read + span < (read.Floor + lease) as real);
    }
  }

  /** A moment late enough in its second for a short lease to end within the span. */
  lemma LateRead(lease: int, span: real) returns (read: real)
    requires lease as real < span + 1.0
    ensures 0.0 <= read < 1.0 && read.Floor == 0
    ensures read + span > lease as real
  {
    var slack := lease as real - span;
    read := if slack < 0.0 then 0.5 else (1.0 + slack) / 2.0;
  }
}
