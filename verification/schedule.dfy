/** The conflict resolver (src/data/DataContext.tsx): the half-open overlap
    test between two appointments and the scan that decides whether a
    proposed appointment collides with an existing booking of the same
    doctor. */
module Schedule {
  import opened Types

  /** The instant `t` lies inside the appointment's span [start, end). */
  predicate Covers(a: Appointment, t: int) {
    a.start <= t < a.end
  }

  /** A span that contains at least one instant. Nothing in the store
      enforces this of the appointments it holds. */
  predicate WellFormed(a: Appointment) {
    a.start < a.end
  }

  /** The source's overlap test: each span starts before the other ends.
      Spans that merely touch (one ends exactly where the other starts) do
      not overlap. */
  function Overlaps(a: Appointment, b: Appointment): (r: bool)
    ensures a.end == b.start ==> !r
    ensures b.end == a.start ==> !r
    ensures a.end <= a.start && b.end <= b.start ==> !r
  {
    a.start < b.end && b.start < a.end
  }

  /** The overlap test does not depend on which appointment comes first. */
  lemma OverlapsSymmetric(a: Appointment, b: Appointment)
    ensures Overlaps(a, b) == Overlaps(b, a)
  {
  }

  /** For well-formed spans the overlap test means exactly "the two
      appointments share an instant". */
  lemma OverlapsIffCommonInstant(a: Appointment, b: Appointment)
    requires WellFormed(a) && WellFormed(b)
    ensures Overlaps(a, b) <==> exists t :: Covers(a, t) && Covers(b, t)
  {
    if Overlaps(a, b) {
      var t := if a.start < b.start then b.start else a.start;
      assert Covers(a, t) && Covers(b, t);
    }
  }

  /** The store never checks `start < end`, and for an inverted span the
      overlap test no longer means a shared instant: [5, 3) covers no instant
      at all, yet it overlaps [0, 10) and so blocks that booking. */
  lemma InvertedSpanStillOverlaps()
    ensures var a := Appointment("a", "d", "p", "", 5, 3);
            var b := Appointment("b", "d", "q", "", 0, 10);
            Overlaps(a, b) && !WellFormed(a) && forall t :: !Covers(a, t)
  {
  }

  /** Whether an existing appointment blocks the proposal: same doctor and
      overlapping span; when `skipOwnId` is set (an update), the record that
      carries the proposal's own id never blocks it. */
  predicate Blocks(existing: Appointment, proposed: Appointment, skipOwnId: bool) {
    && (skipOwnId ==> existing.id != proposed.id)
    && existing.doctorId == proposed.doctorId
    && Overlaps(existing, proposed)
  }

  /** The local conflict scan (`appointments.some(...)`), walked from the
      front of the list: true exactly when some existing appointment blocks
      the proposal. */
  function ConflictScan(existing: seq<Appointment>, proposed: Appointment, skipOwnId: bool): (r: bool)
    ensures r <==> exists i :: 0 <= i < |existing| && Blocks(existing[i], proposed, skipOwnId)
    decreases |existing|
  {
    if |existing| == 0 then false
    else if Blocks(existing[0], proposed, skipOwnId) then true
    else
      var rest := ConflictScan(existing[1..], proposed, skipOwnId);
      assert forall i :: 1 <= i < |existing| ==> existing[i] == existing[1..][i - 1];
      rest
  }

  /** Appointments of other doctors never influence the scan. */
  lemma {:induction false} ScanIgnoresOtherDoctors(existing: seq<Appointment>, other: Appointment, proposed: Appointment, skipOwnId: bool)
    requires other.doctorId != proposed.doctorId
    ensures ConflictScan(existing + [other], proposed, skipOwnId) == ConflictScan(existing, proposed, skipOwnId)
  {
    var s := existing + [other];
    assert forall i :: 0 <= i < |existing| ==> s[i] == existing[i];
  }
}
