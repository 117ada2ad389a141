/**
 * The simulated progress bar of the analyzer form (`AnalysisProgress`).
 * While a submission is pending, an interval timer raises the value by 5
 * until it reaches 95 and then stops itself; when pending flips, the value
 * goes back to 0. Timer firings and changes of `pending` are explicit calls.
 */
module AnalysisProgress {
  import opened Wrappers

  const Step := 5
  const Cap := 95

  /** The updater the interval callback hands to `setProgress`. */
  function NextProgress(prev: int): int {
    if prev >= Cap then prev else prev + Step
  }

  /** The value after `ticks` firings of the interval, starting from 0. */
  function ProgressAfter(ticks: nat): int {
    if ticks == 0 then 0 else NextProgress(ProgressAfter(ticks - 1))
  }

  function Min(a: int, b: int): int {
    if a <= b then a else b
  }

  /** The value climbs by 5 per firing and then stays at 95. */
  lemma {:induction false} ProgressAfterClosedForm(ticks: nat)
    ensures ProgressAfter(ticks) == Min(Step * ticks, Cap)
  {
    if ticks > 0 {
      ProgressAfterClosedForm(ticks - 1);
    }
  }

  /** Every reachable value lies in [0, 95] and is a multiple of 5. */
  lemma ProgressInRange(ticks: nat)
    ensures 0 <= ProgressAfter(ticks) <= Cap
    ensures ProgressAfter(ticks) % Step == 0
  {
  }

  class Progress {
    var pending: bool
    var progress: int
    /** Whether the interval timer is installed. */
    var intervalActive: bool
    /** How many times the interval has fired since pending began. */
    ghost var ticks: nat

    ghost predicate Valid()
      reads this
    {
      0 <= progress <= Cap && progress % Step == 0 &&
      progress == ProgressAfter(ticks) &&
      (!pending ==> progress == 0 && !intervalActive) &&
      // the timer only stops itself once the cap is reached
      (pending && !intervalActive ==> progress == Cap)
    }

    /** Mounting runs the effect once with the initial `pending`. */
    constructor (pending: bool)
      ensures Valid()
      ensures this.pending == pending && progress == 0 && intervalActive == pending
    {
      this.pending := pending;
      progress := 0;
      intervalActive := pending;
      ticks := 0;
    }

    /** `pending` as seen by the next render; the effect reruns only when it changed. */
    method SetPending(p: bool)
      requires Valid()
      modifies this
      ensures Valid()
      ensures pending == p
      ensures p != old(pending) ==> progress == 0 && intervalActive == p
      ensures p == old(pending) ==> progress == old(progress) && intervalActive == old(intervalActive)
    {
      if p != pending {
        progress := 0;
        intervalActive := p;
        ticks := 0;
        pending := p;
      }
    }

    /** One firing of the 200 ms interval; nothing happens when no timer is installed. */
    method Tick()
      requires Valid()
      modifies this
      ensures Valid()
      ensures pending == old(pending)
      ensures progress == if old(intervalActive) then NextProgress(old(progress)) else old(progress)
      ensures intervalActive == (old(intervalActive) && old(progress) < Cap)
    {
      if intervalActive {
        if progress >= Cap {
          intervalActive := false;
        } else {
          progress := progress + Step;
        }
        ticks := ticks + 1;
        ProgressInRange(ticks);
      }
    }

    /** The rendered bar: nothing unless pending, otherwise the current value. */
    function Shown(): (v: Option<int>)
      reads this
      requires Valid()
      ensures v.Some? <==> pending
      ensures v.Some? ==> 0 <= v.value <= Cap && v.value % Step == 0
    {
      if pending then Some(progress) else None
    }
  }

  /**
   * A submission that stays pending while the interval fires `n` times:
   * the bar then shows min(5 n, 95).
   */
  method RunPending(n: nat) returns (shown: Option<int>)
    ensures shown == Some(Min(Step * n, Cap))
  {
    var bar := new Progress(false);
    bar.SetPending(true);
    var i := 0;
    while i < n
      invariant 0 <= i <= n
      invariant bar.Valid() && bar.pending
      invariant bar.progress == Min(Step * i, Cap)
    {
      bar.Tick();
      i := i + 1;
    }
    shown := bar.Shown();
  }
}
