/**
 * The frame sequencer of the message card: an index into the payload's
 * frames that a recurring timer advances, looping, one step per tick.
 *
 * The timer exists only while there are frames. Its period is the dwell time
 * of the frame shown when it was (re)started; when the shown frame's duration
 * changes the timer is restarted with the new period, so every frame stays up
 * for its own dwell time. A tick is modelled as one discrete step event.
 */
module FrameSequencer {
  import opened Payload

  /** The dwell floor and the dwell of a frame without a duration, in milliseconds. */
  const MinDwellMs: int := 1800
  const DefaultDurationMs: int := 2400

  /**
   * How long a frame with the given duration stays up: an absent (0) duration
   * counts as 2.4 seconds, and nothing stays up shorter than 1.8 seconds.
   */
  function DwellMs(durationMs: int): (d: int)
    ensures d >= MinDwellMs
    ensures durationMs == 0 ==> d == DefaultDurationMs
    ensures durationMs >= MinDwellMs ==> d == durationMs
    ensures durationMs != 0 && durationMs < MinDwellMs ==> d == MinDwellMs
  {
    var effective := if durationMs == 0 then DefaultDurationMs else durationMs;
    if effective > MinDwellMs then effective else MinDwellMs
  }

  /**
   * The index after one tick over `n` frames. With no frames there is no
   * timer, so the index stays where it is.
   */
  function Advance(i: nat, n: nat): (j: nat)
    ensures n == 0 ==> j == i
    ensures n > 0 ==> j < n
    ensures n > 0 && i + 1 < n ==> j == i + 1
    ensures n > 0 && i + 1 == n ==> j == 0
  {
    if n == 0 then i else (i + 1) % n
  }

  /** The index after `k` ticks. */
  function AdvanceBy(i: nat, n: nat, k: nat): nat
  {
    if k == 0 then i else Advance(AdvanceBy(i, n, k - 1), n)
  }

  /** The indices shown during `k` consecutive dwell periods, starting at `i`. */
  function Visits(i: nat, n: nat, k: nat): (r: seq<nat>)
    ensures |r| == k
    ensures forall t :: 0 <= t < k ==> r[t] == AdvanceBy(i, n, t)
  {
    if k == 0 then [] else Visits(i, n, k - 1) + [AdvanceBy(i, n, k - 1)]
  }

  /** The frame on display: the indexed frame, or the empty record when the index is out of range. */
  function ShownFrame(frames: seq<Frame>, index: nat): (f: Frame)
    ensures index < |frames| ==> f == frames[index]
    ensures index >= |frames| ==> f == EmptyFrame
  {
    if index < |frames| then frames[index] else EmptyFrame
  }

  /**
   * The period of the running timer, or None when there is none: no frames,
   * no timer; otherwise the dwell of the shown frame.
   */
  function TimerPeriod(frames: seq<Frame>, index: nat): (r: Option<int>)
    ensures r.None? <==> frames == []
    ensures r.Some? ==> r.value >= MinDwellMs
    ensures r.Some? && index < |frames| ==> r.value == DwellMs(frames[index].durationMs)
    ensures r.Some? && index >= |frames| ==> r.value == DefaultDurationMs
  {
    if frames == [] then None else Some(DwellMs(ShownFrame(frames, index).durationMs))
  }

  /** One dwell period: which index is shown, and for how long. */
  datatype Slot = Slot(index: nat, dwellMs: int)

  /** The first `k` dwell periods of playback from index `i`. */
  function Playback(frames: seq<Frame>, i: nat, k: nat): (r: seq<Slot>)
    requires frames != []
    ensures |r| == k
    ensures forall t :: 0 <= t < k ==> r[t].index == AdvanceBy(i, |frames|, t)
    ensures forall t :: 0 <= t < k ==> r[t].dwellMs == DwellMs(ShownFrame(frames, r[t].index).durationMs)
  {
    var v := Visits(i, |frames|, k);
    seq(k, t requires 0 <= t < k => Slot(v[t], DwellMs(ShownFrame(frames, v[t]).durationMs)))
  }

  // ---------------------------------------------------------------------------
  // The imperative sequencer: the component's `index` state and its frames.

  class Sequencer {
    var frames: seq<Frame>
    var index: nat

    /** A freshly mounted card shows index 0. */
    constructor (frames: seq<Frame>)
      ensures this.frames == frames && index == 0
    {
      this.frames := frames;
      index := 0;
    }

    function Shown(): (f: Frame)
      reads this
      ensures index < |frames| ==> f == frames[index]
      ensures index >= |frames| ==> f == EmptyFrame
    {
      ShownFrame(frames, index)
    }

    function Period(): (r: Option<int>)
      reads this
      ensures r == TimerPeriod(frames, index)
    {
      TimerPeriod(frames, index)
    }

    /** The timer fires: step to the next index, wrapping to 0. Without frames there is no timer. */
    method Tick()
      modifies this`index
      ensures index == Advance(old(index), |frames|)
      ensures frames != [] ==> index < |frames|
      ensures frames == [] ==> index == old(index)
    {
      if |frames| > 0 {
        index := (index + 1) % |frames|;
      }
    }

    /** A new payload arrives: the frames are replaced and the index is kept as it is. */
    method SetFrames(fs: seq<Frame>)
      modifies this`frames
      ensures frames == fs && index == old(index)
    {
      frames := fs;
    }
  }

  // ---------------------------------------------------------------------------
  // Properties of playback.

  /** Over a non-empty sequence, `k <= n` ticks from a valid index land on `(i + k) mod n`. */
  lemma {:induction false} AdvanceByIsModular(i: nat, n: nat, k: nat)
    requires 0 < n && i < n && k <= n
    ensures AdvanceBy(i, n, k) == (i + k) % n
  {
    if k > 0 {
      AdvanceByIsModular(i, n, k - 1);
      ModBelowTwice(i + k - 1, n);
      ModBelowTwice(i + k, n);
      var p := AdvanceBy(i, n, k - 1);
      assert p < n;
      if p + 1 < n {
        assert Advance(p, n) == p + 1;
      } else {
        assert Advance(p, n) == 0;
      }
    }
  }

  /** An index out of range, left over from a longer payload, is back in range after one tick. */
  lemma TickRecovers(i: nat, n: nat)
    requires 0 < n <= i
    ensures Advance(i, n) < n
    ensures AdvanceBy(i, n, 1) == (i + 1) % n
  {
  }

  /** From any index, after one tick the sequencer is on a valid index and stays on valid indices. */
  lemma AdvanceByInRange(i: nat, n: nat, k: nat)
    requires 0 < n && 0 < k
    ensures AdvanceBy(i, n, k) < n
  {
  }

  /** Without frames no tick ever changes the index. */
  lemma {:induction false} NoFramesNoMovement(i: nat, k: nat)
    ensures AdvanceBy(i, 0, k) == i
  {
    if k > 0 {
      NoFramesNoMovement(i, k - 1);
    }
  }

  /** `n` ticks from a valid index return to it. */
  lemma FullCycleReturns(i: nat, n: nat)
    requires 0 < n && i < n
    ensures AdvanceBy(i, n, n) == i
  {
    AdvanceByIsModular(i, n, n);
    ModBelowTwice(i + n, n);
  }

  /**
   * During one full cycle from a valid index, every index is shown exactly
   * once: the `t`-th period shows `(i + t) mod n`, no index repeats, and
   * every index occurs.
   */
  lemma FullCycleVisitsEachOnce(i: nat, n: nat)
    requires 0 < n && i < n
    ensures forall t :: 0 <= t < n ==> Visits(i, n, n)[t] == (i + t) % n
    ensures forall a, b :: 0 <= a < b < n ==> Visits(i, n, n)[a] != Visits(i, n, n)[b]
    ensures forall j :: 0 <= j < n ==> j in Visits(i, n, n)
  {
    var v := Visits(i, n, n);
    forall t | 0 <= t < n
      ensures v[t] == (i + t) % n
    {
      AdvanceByIsModular(i, n, t);
    }
    forall a, b | 0 <= a < b < n
      ensures v[a] != v[b]
    {
      ModBelowTwice(i + a, n);
      ModBelowTwice(i + b, n);
    }
    forall j | 0 <= j < n
      ensures j in v
    {
      var t := if j >= i then j - i else j + n - i;
      ModBelowTwice(i + t, n);
      assert v[t] == j;
    }
  }

  /** Reducing a number below `2n` modulo `n` subtracts `n` at most once. */
  lemma ModBelowTwice(x: nat, n: nat)
    requires 0 < n && x < 2 * n
    ensures x % n == if x < n then x else x - n
  {
  }

  /**
   * After a payload swap leaves the index past the end of a non-empty
   * sequence, the empty record is shown for the default 2.4 seconds, and from
   * the next period on only valid indices are shown.
   */
  lemma SwapPastEnd(frames: seq<Frame>, i: nat, k: nat)
    requires 0 < |frames| <= i && 0 < k
    ensures Playback(frames, i, k)[0] == Slot(i, DefaultDurationMs)
    ensures ShownFrame(frames, Playback(frames, i, k)[0].index) == EmptyFrame
    ensures forall t :: 1 <= t < k ==> Playback(frames, i, k)[t].index < |frames|
  {
  }

  /**
   * Two frames of 1 s and 3 s: the first stays up for the 1.8 s floor, the
   * second for 3 s, then playback is back on the first.
   */
  lemma TwoFrameScenario(a: Frame, b: Frame)
    requires a.durationMs == 1000 && b.durationMs == 3000
    ensures Playback([a, b], 0, 3) == [Slot(0, 1800), Slot(1, 3000), Slot(0, 1800)]
  {
    var p := Playback([a, b], 0, 3);
    assert AdvanceBy(0, 2, 1) == 1;
    assert AdvanceBy(0, 2, 2) == 0;
    assert p[0] == Slot(0, 1800) && p[1] == Slot(1, 3000) && p[2] == Slot(0, 1800);
  }
}
