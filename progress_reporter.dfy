/**
  A unit counter that turns completed and total units into a progress
  fraction and tells a handler about every change (STAProgressReporter).
  The handler runs on a dispatch queue; here each notification is recorded,
  in order, in `notifications`.
 */
module ProgressReporting {

  /** int32_t. */
  newtype int32 = x: int | -0x8000_0000 <= x < 0x8000_0000

  /** The dispatch queue handler calls are sent to (opaque). */
  datatype Queue = Queue(key: nat)

  /** The registered progress handler (opaque). */
  datatype Handler = Handler(key: nat)

  /** What the reporter says about progress: unknown while no total is set, else a fraction. */
  datatype Reading = Indeterminate | Fraction(value: real)

  /** The progress implied by two unit counts. */
  function ProgressOf(completedUnits: int32, totalUnits: int32): (p: Reading)
    ensures p.Indeterminate? <==> totalUnits == 0
    ensures p.Fraction? ==> p.value * (totalUnits as real) == completedUnits as real
  {
    if totalUnits == 0 then Indeterminate
    else Fraction((completedUnits as real) / (totalUnits as real))
  }

  /** With completed units between zero and the total, progress is a fraction in [0, 1]. */
  lemma ProgressWithinUnitInterval(completedUnits: int32, totalUnits: int32)
    requires 0 <= completedUnits <= totalUnits && totalUnits != 0
    ensures ProgressOf(completedUnits, totalUnits).Fraction?
    ensures 0.0 <= ProgressOf(completedUnits, totalUnits).value <= 1.0
  {
    var c, t := completedUnits as real, totalUnits as real;
    assert c / t <= t / t;
  }

  /** More completed units of the same positive total never mean less progress. */
  lemma ProgressMonotone(a: int32, b: int32, totalUnits: int32)
    requires a <= b && totalUnits > 0
    ensures ProgressOf(a, totalUnits).value <= ProgressOf(b, totalUnits).value
  {
    var x, y, t := a as real, b as real, totalUnits as real;
    assert ProgressOf(a, totalUnits).value == x / t && ProgressOf(b, totalUnits).value == y / t;
    DivideMonotone(x, y, t);
  }

  lemma DivideMonotone(x: real, y: real, t: real)
    requires x <= y && t > 0.0
    ensures x / t <= y / t
  {
    assert y / t - x / t == (y - x) / t;
  }

  /** Progress is complete exactly when all of a positive total is done. */
  lemma ProgressComplete(completedUnits: int32, totalUnits: int32)
    requires totalUnits > 0
    ensures ProgressOf(completedUnits, totalUnits) == Fraction(1.0) <==> completedUnits == totalUnits
  {
    var c, t := completedUnits as real, totalUnits as real;
    assert ProgressOf(completedUnits, totalUnits) == Fraction(c / t);
    assert c / t == 1.0 <==> c == t by {
      assert c / t * t == c;
    }
  }

  class ProgressReporter {
    const queue: Queue
    const progressHandler: Handler
    var totalUnits: int32
    var completedUnits: int32
    /** The readings passed to the handler, oldest first. */
    var notifications: seq<Reading>

    /** progressReporterWithQueue:handler: -- no units yet, nothing reported. */
    constructor (queue: Queue, handler: Handler)
      ensures this.queue == queue && progressHandler == handler
      ensures totalUnits == 0 && completedUnits == 0
      ensures notifications == []
    {
      this.queue := queue;
      progressHandler := handler;
      totalUnits := 0;
      completedUnits := 0;
      notifications := [];
    }

    /** isIndeterminate */
    predicate IsIndeterminate()
      reads this
      ensures IsIndeterminate() <==> ProgressOf(completedUnits, totalUnits).Indeterminate?
    {
      totalUnits == 0
    }

    /** progress */
    function Progress(): (p: Reading)
      reads this
      ensures p.Indeterminate? <==> IsIndeterminate()
      ensures p.Fraction? ==> p.value * (totalUnits as real) == completedUnits as real
    {
      ProgressOf(completedUnits, totalUnits)
    }

    /** setTotalUnits: -- the handler is told the new progress once. */
    method SetTotalUnits(units: int32)
      modifies this`totalUnits, this`notifications
      ensures totalUnits == units
      ensures notifications == old(notifications) + [ProgressOf(completedUnits, units)]
    {
      totalUnits := units;
      notifications := notifications + [Progress()];
    }

    /** setCompletedUnits: -- the handler is told the new progress once. */
    method SetCompletedUnits(units: int32)
      modifies this`completedUnits, this`notifications
      ensures completedUnits == units
      ensures notifications == old(notifications) + [ProgressOf(units, totalUnits)]
    {
      completedUnits := units;
      notifications := notifications + [Progress()];
    }
  }

  /**
    A pass that sets a positive total and then completes units up to it
    reports, at the end, a progress of exactly 1.
   */
  method ReportPass(reporter: ProgressReporter, total: int32)
    requires total > 0
    modifies reporter
    ensures reporter.totalUnits == total && reporter.completedUnits == total
    ensures |reporter.notifications| == |old(reporter.notifications)| + 2 + total as int
    ensures reporter.notifications[..|old(reporter.notifications)|] == old(reporter.notifications)
    ensures reporter.notifications[|reporter.notifications| - 1] == Fraction(1.0)
    ensures forall k :: |old(reporter.notifications)| < k < |reporter.notifications| ==>
              reporter.notifications[k].Fraction?
              && 0.0 <= reporter.notifications[k].value <= 1.0
    ensures forall k :: |old(reporter.notifications)| + 1 < k < |reporter.notifications| ==>
              reporter.notifications[k - 1].value <= reporter.notifications[k].value
  {
    reporter.SetCompletedUnits(0);
    reporter.SetTotalUnits(total);
    ghost var start := |old(reporter.notifications)| + 1;
    var done: int32 := 0;
    while done < total
      invariant 0 <= done <= total
      invariant reporter.totalUnits == total && reporter.completedUnits == done
      invariant |reporter.notifications| == start + 1 + done as int
      invariant reporter.notifications[..start - 1] == old(reporter.notifications)
      invariant forall k :: start <= k < |reporter.notifications| ==>
                  reporter.notifications[k] == ProgressOf((k - start) as int32, total)
    {
      reporter.SetCompletedUnits(done + 1);
      done := done + 1;
    }
    ProgressComplete(total, total);
    forall k | start < k < |reporter.notifications|
      ensures reporter.notifications[k].Fraction? && 0.0 <= reporter.notifications[k].value <= 1.0
    {
      ProgressWithinUnitInterval((k - start) as int32, total);
    }
    forall k | start < k < |reporter.notifications|
      ensures reporter.notifications[k - 1].value <= reporter.notifications[k].value
    {
      ProgressMonotone((k - 1 - start) as int32, (k - start) as int32, total);
    }
  }
}
