/**
 * measure_data: the host loop that drains the digitizer while the HVI
 * sequence runs. Each pass of the loop may run the timeout check (on a log
 * tick of the wall clock), then polls every channel for ready points: ready
 * points are read (and, when averaging, folded into per-cycle means through a
 * per-channel buffer), no points let the host check whether a segment is
 * complete and reconfigure the digitizer. With saving on, the loop then
 * records how many rows every channel has filled.
 *
 * The digitizer, the HVI registers and the clock are an abstract trace of
 * `Poll`s; the data values themselves are not modelled, only how many points
 * and cycles each channel holds.
 */
module Acquisition {
  import opened Wrappers
  import opened Numerics
  import Segments

  /* ---------------- Channel mask ---------------- */

  /** Bit `k` of a non-negative Python integer. */
  predicate HasBit(m: nat, k: nat)
  {
    if k == 0 then m % 2 == 1 else HasBit(m / 2, k - 1)
  }

  /** `m | (1 << j)`. */
  function SetBit(m: nat, j: nat): nat
  {
    if j == 0 then (if m % 2 == 1 then m else m + 1) else 2 * SetBit(m / 2, j - 1) + m % 2
  }

  /** Setting bit `j` sets that bit and leaves every other bit as it was. */
  lemma {:induction false} SetBitEffect(m: nat, j: nat, k: nat)
    ensures HasBit(SetBit(m, j), k) <==> HasBit(m, k) || j == k
  {
    if j > 0 && k > 0 {
      SetBitEffect(m / 2, j - 1, k - 1);
    }
  }

  lemma {:induction false} NoBitOfZero(k: nat)
    ensures !HasBit(0, k)
  {
    if k > 0 {
      NoBitOfZero(k - 1);
    }
  }

  datatype MaskError = NegativeShift(channel: int)

  /**
   * The channel mask: the least significant bit is channel 1, bit 1 channel
   * 2 and so on; a channel number below 1 is a negative shift count.
   */
  method ChannelMask(channels: seq<int>) returns (r: Result<nat, MaskError>)
    ensures r.Success? <==> forall i :: 0 <= i < |channels| ==> channels[i] >= 1
    ensures r.Success? ==> forall k: nat :: HasBit(r.value, k) <==> (k + 1) in channels
  {
    var mask: nat := 0;
    forall k: nat
      ensures !HasBit(mask, k)
    {
      NoBitOfZero(k);
    }
    for i := 0 to |channels|
      invariant forall j :: 0 <= j < i ==> channels[j] >= 1
      invariant forall k: nat :: HasBit(mask, k) <==> (k + 1) in channels[..i]
    {
      if channels[i] < 1 {
        return Failure(NegativeShift(channels[i]));
      }
      var bit := channels[i] - 1;
      forall k: nat
        ensures HasBit(SetBit(mask, bit), k) <==> HasBit(mask, k) || bit == k
      {
        SetBitEffect(mask, bit, k);
      }
      assert channels[..i + 1] == channels[..i] + [channels[i]];
      mask := SetBit(mask, bit);
    }
    assert channels[..|channels|] == channels;
    r := Success(mask);
  }

  /* ---------------- Settings, inputs and state ---------------- */

  /**
   * What measure_data works with: points per cycle, cycles, the total
   * points per channel (`acquisition_points_per_cycle * num_cycles`), the
   * segment plan, the mode flags and the timeout limit in log ticks.
   */
  datatype Params = Params(
    pointsPerCycle: int, numCycles: int, maxPoints: int,
    cyclesPerSegment: int, numSegments: int,
    averageData: bool, countdown: bool, saveData: bool,
    timeoutLimit: int)

  /** Seconds between two log ticks. */
  const LogInterval: real := 0.3

  /**
   * The settings of one measurement: the segment plan comes from
   * calc_num_cycles_per_segment and the timeout limit is
   * `round(max_time / log_interval)`.
   */
  function MakeParams(pointsPerCycle: int, numCycles: int, useQdEmulator: bool, maxTime: real,
                      averageData: bool, countdown: bool, saveData: bool): Result<Params, string>
  {
    match Segments.CalcNumCyclesPerSegment(numCycles, pointsPerCycle, useQdEmulator)
    case Failure(e) => Failure(e)
    case Success(plan) =>
      Success(Params(pointsPerCycle, numCycles, pointsPerCycle * numCycles,
                     plan.cyclesPerSegment, plan.numSegments,
                     averageData, countdown, saveData, RoundHalfEven(maxTime / LogInterval)))
  }

  /** `config.num_cycles`: one acquisition cycle per point of the 2D map. */
  function NumCycles(numSteps1d: int, numSteps2d: int): (r: int)
    ensures numSteps1d >= 1 && numSteps2d >= 1 ==> r >= numSteps1d && r >= numSteps2d
  {
    numSteps1d * numSteps2d
  }

  /** What one channel reports in one pass: its ready count and, read only when it is not positive, the two segment registers. */
  datatype ChannelPoll = ChannelPoll(ready: int, cyclesInSegment: int, cyclesSinceConfig: int)

  /**
   * One pass of the loop: the `hvi_done` register as read by the loop
   * condition, whether the clock passed the next log time, and one report
   * per channel.
   */
  datatype Poll = Poll(hviDone: int, logTick: bool, channels: seq<ChannelPoll>)

  /** What the host asks of the digitizer when a segment is complete. */
  datatype DigAction =
    | ConfigureFullSegment
    | ConfigureLastSegment(cycles: int)
    | ResetCyclesSinceConfig

  datatype AcqError =
    | SliceOverflow(channel: int)
    | NoChannels
    | CycleDivisionByZero(channel: int)       // `data.size // 0` with no points per cycle
    | ProgressDivisionByZero(channel: int)    // `readPoints[i] / max_points` with max_points == 0

  /**
   * The loop's variables, one entry per channel: readPoints, old_readPoints,
   * data_all_read, timeout_counter, the length of each averaging buffer and
   * averaged_data_index; then segments_measured, saved_data_index, whether
   * the stop event is set, and the actions sent to the digitizer so far.
   */
  datatype AcqState = AcqState(
    readPoints: seq<int>, oldReadPoints: seq<int>, dataAllRead: seq<bool>,
    timeoutCounter: seq<int>, bufferLen: seq<int>, averagedIndex: seq<int>,
    segmentsMeasured: int, savedDataIndex: int, stopped: bool, actions: seq<DigAction>)

  predicate Sized(st: AcqState)
  {
    && |st.oldReadPoints| == |st.readPoints| && |st.dataAllRead| == |st.readPoints|
    && |st.timeoutCounter| == |st.readPoints| && |st.bufferLen| == |st.readPoints|
    && |st.averagedIndex| == |st.readPoints|
  }

  predicate WellFormed(trace: seq<Poll>, n: nat)
  {
    forall k :: 0 <= k < |trace| ==> |trace[k].channels| == n
  }

  function Initial(n: nat): (st: AcqState)
    ensures Sized(st) && |st.readPoints| == n
  {
    AcqState(seq(n, _ => 0), seq(n, _ => 0), seq(n, _ => false), seq(n, _ => 0),
             seq(n, _ => 0), seq(n, _ => 0), 0, 0, false, [])
  }

  /* ---------------- Timeout check ---------------- */

  /** A channel that has started and read nothing since the last log tick. */
  predicate Stalled(st: AcqState, i: int)
    requires Sized(st) && 0 <= i < |st.readPoints|
  {
    st.readPoints[i] == st.oldReadPoints[i] && st.readPoints[i] > 0
  }

  /** A stalled channel whose counter passes the limit on this tick. */
  predicate TimedOut(p: Params, st: AcqState, i: int)
    requires Sized(st) && 0 <= i < |st.readPoints|
  {
    Stalled(st, i) && st.timeoutCounter[i] + 1 > p.timeoutLimit
  }

  predicate AnyTimedOut(p: Params, st: AcqState, k: int)
    requires Sized(st) && k <= |st.readPoints|
  {
    exists i :: 0 <= i < k && TimedOut(p, st, i)
  }

  function TickedCounters(st: AcqState): (c: seq<int>)
    requires Sized(st)
    ensures |c| == |st.readPoints|
  {
    seq(|st.readPoints|, i requires 0 <= i < |st.readPoints| =>
      if Stalled(st, i) then st.timeoutCounter[i] + 1 else st.timeoutCounter[i])
  }

  /** The timeout check run on a log tick. */
  function TimeoutTick(p: Params, st: AcqState): (r: AcqState)
    requires Sized(st)
    ensures Sized(r) && |r.readPoints| == |st.readPoints|
  {
    st.(timeoutCounter := TickedCounters(st), oldReadPoints := st.readPoints,
        stopped := st.stopped || AnyTimedOut(p, st, |st.readPoints|))
  }

  /** The loop over the channels of the timeout check. */
  method TimeoutCheck(p: Params, st: AcqState) returns (r: AcqState)
    requires Sized(st)
    ensures r == TimeoutTick(p, st)
  {
    var n := |st.readPoints|;
    var counters := st.timeoutCounter;
    var old_ := st.oldReadPoints;
    var stop := st.stopped;
    ghost var ticked := TickedCounters(st);
    for i := 0 to n
      invariant |counters| == n && |old_| == n
      invariant forall j :: 0 <= j < n ==> counters[j] == if j < i then ticked[j] else st.timeoutCounter[j]
      invariant forall j :: 0 <= j < n ==> old_[j] == if j < i then st.readPoints[j] else st.oldReadPoints[j]
      invariant stop == (st.stopped || AnyTimedOut(p, st, i))
    {
      if st.readPoints[i] == old_[i] && st.readPoints[i] > 0 {
        counters := counters[i := counters[i] + 1];
        if counters[i] > p.timeoutLimit {
          stop := true;
        }
      }
      old_ := old_[i := st.readPoints[i]];
      assert AnyTimedOut(p, st, i + 1) <==> AnyTimedOut(p, st, i) || TimedOut(p, st, i);
    }
    assert counters == ticked;
    assert old_ == st.readPoints;
    r := st.(timeoutCounter := counters, oldReadPoints := old_, stopped := stop);
  }

  /**
   * A counter grows on a tick exactly when its channel is stalled, and then
   * by one; the stop event is newly set only when some counter passes the
   * limit, and it is set whenever a stalled channel's counter passes it.
   */
  lemma TimeoutTickEffect(p: Params, st: AcqState)
    requires Sized(st)
    ensures forall i :: 0 <= i < |st.readPoints| ==>
      TimeoutTick(p, st).timeoutCounter[i]
        == st.timeoutCounter[i] + (if Stalled(st, i) then 1 else 0)
    ensures TimeoutTick(p, st).stopped && !st.stopped ==>
      exists i :: 0 <= i < |st.readPoints| && TimeoutTick(p, st).timeoutCounter[i] > p.timeoutLimit
    ensures forall i :: (0 <= i < |st.readPoints| && Stalled(st, i) &&
      TimeoutTick(p, st).timeoutCounter[i] > p.timeoutLimit) ==> TimeoutTick(p, st).stopped
    ensures TimeoutTick(p, st).stopped <==>
      st.stopped ||
      exists i :: 0 <= i < |st.readPoints| && Stalled(st, i) && TimeoutTick(p, st).timeoutCounter[i] > p.timeoutLimit
    ensures TimeoutTick(p, st).oldReadPoints == st.readPoints
  {
    var t := TimeoutTick(p, st);
    forall i | 0 <= i < |st.readPoints| && Stalled(st, i) && t.timeoutCounter[i] > p.timeoutLimit
      ensures t.stopped
    {
      assert TimedOut(p, st, i);
    }
  }

  /* ---------------- Reading a channel ---------------- */

  /**
   * numpy slice assignment `a[start:start+len] = data` with `len(data) == len`
   * on an array of `size` elements: the slot is cut at the end of the array,
   * and a slot of another length than the data raises unless the data is a
   * single value, which broadcasts.
   */
  predicate Fits(start: int, len: int, size: int)
  {
    var slot := if start >= size then 0 else if start + len <= size then len else size - start;
    slot == len || len == 1
  }

  /**
   * The `ready_pts > 0` branch for channel `i`: all timeout counters are
   * reset, the points are stored (averaged per full cycle through the
   * buffer when averaging) and readPoints grows by the ready count. With
   * averaging and no points per cycle, every read reaches `data.size // 0`.
   */
  function Ingest(p: Params, st: AcqState, i: int, ready: int): (r: Result<AcqState, AcqError>)
    requires p.pointsPerCycle >= 0 && Sized(st) && 0 <= i < |st.readPoints| && ready > 0
    ensures r.Success? ==> Sized(r.value) && |r.value.readPoints| == |st.readPoints|
  {
    var n := |st.readPoints|;
    var s := st.(timeoutCounter := seq(n, _ => 0));
    var stored :=
      if p.averageData then
        var size := st.bufferLen[i] + ready;
        if p.pointsPerCycle == 0 then Failure(CycleDivisionByZero(i))
        else if size >= p.pointsPerCycle then
          var nb := size / p.pointsPerCycle;
          if Fits(st.averagedIndex[i], nb, p.numCycles) then
            Success(s.(averagedIndex := st.averagedIndex[i := st.averagedIndex[i] + nb],
                       bufferLen := st.bufferLen[i := size - nb * p.pointsPerCycle]))
          else Failure(SliceOverflow(i))
        else Success(s.(bufferLen := st.bufferLen[i := size]))
      else if Fits(st.readPoints[i], ready, p.maxPoints) then Success(s)
      else Failure(SliceOverflow(i));
    match stored
    case Failure(e) => Failure(e)
    case Success(s2) =>
      var rp := st.readPoints[i] + ready;
      Success(s2.(readPoints := st.readPoints[i := rp],
                  oldReadPoints := if rp == p.maxPoints then st.oldReadPoints[i := 0] else st.oldReadPoints))
  }

  /** The actions after the `m`-th segment has been measured. */
  function SegmentActions(p: Params, m: int): seq<DigAction>
  {
    (if m == p.numSegments then []
     else if m == p.numSegments - 1 then
       [ConfigureLastSegment(Segments.LastSegmentCycles(p.numCycles, Segments.SegmentPlan(p.cyclesPerSegment, p.numSegments)))]
     else [ConfigureFullSegment])
    + [ResetCyclesSinceConfig]
  }

  /** The `ready_pts <= 0` branch: a segment is complete when enough cycles passed since the last configuration. */
  function SegmentCheck(p: Params, st: AcqState, cp: ChannelPoll): AcqState
  {
    if cp.cyclesSinceConfig >= cp.cyclesInSegment then
      st.(segmentsMeasured := st.segmentsMeasured + 1,
          actions := st.actions + SegmentActions(p, st.segmentsMeasured + 1))
    else st
  }

  /** `if readPoints[j] >= max_points: data_all_read[j] = True`. */
  function MarkDone(p: Params, st: AcqState, j: int): (r: AcqState)
    requires Sized(st) && 0 <= j < |st.readPoints|
    ensures Sized(r) && |r.readPoints| == |st.readPoints|
  {
    if st.readPoints[j] >= p.maxPoints then st.(dataAllRead := st.dataAllRead[j := true]) else st
  }

  /**
   * The body of the loop over the channels for channel `i`. With the
   * countdown on, a read is followed by the progress line, whose percentages
   * divide by max_points, and whose own `for i, ch in ...` rebinds `i`, so
   * the completion check after a read looks at the last channel.
   */
  function ChannelStep(p: Params, st: AcqState, i: int, cp: ChannelPoll): (r: Result<AcqState, AcqError>)
    requires p.pointsPerCycle >= 0 && Sized(st) && 0 <= i < |st.readPoints|
    ensures r.Success? ==> Sized(r.value) && |r.value.readPoints| == |st.readPoints|
  {
    if cp.ready > 0 then
      match Ingest(p, st, i, cp.ready)
      case Failure(e) => Failure(e)
      case Success(s) =>
        if p.countdown && p.maxPoints == 0 then Failure(ProgressDivisionByZero(i))
        else Success(MarkDone(p, s, if p.countdown then |st.readPoints| - 1 else i))
    else Success(MarkDone(p, SegmentCheck(p, st, cp), i))
  }

  /** The loop over the channels from channel `i` on. */
  function ChannelsFrom(p: Params, st: AcqState, polls: seq<ChannelPoll>, i: nat): (r: Result<AcqState, AcqError>)
    requires p.pointsPerCycle >= 0 && Sized(st) && |polls| == |st.readPoints| && i <= |polls|
    ensures r.Success? ==> Sized(r.value) && |r.value.readPoints| == |st.readPoints|
    decreases |polls| - i
  {
    if i == |polls| then Success(st)
    else
      match ChannelStep(p, st, i, polls[i])
      case Failure(e) => Failure(e)
      case Success(s) => ChannelsFrom(p, s, polls, i + 1)
  }

  /** One channel of the loop: its step fails the loop, or the loop goes on from its result. */
  lemma ChannelsFromStep(p: Params, st: AcqState, polls: seq<ChannelPoll>, i: nat)
    requires p.pointsPerCycle >= 0 && Sized(st) && |polls| == |st.readPoints| && i < |polls|
    ensures ChannelsFrom(p, st, polls, i) ==
      match ChannelStep(p, st, i, polls[i])
      case Failure(e) => Failure(e)
      case Success(s) => ChannelsFrom(p, s, polls, i + 1)
  {
  }

  /* ---------------- Saving ---------------- */

  function Min(a: int, b: int): int { if a <= b then a else b }

  /** The non-NaN entries of channel `i`'s row: the rows are filled from the start and cut at the array's end. */
  function Filled(p: Params, st: AcqState, i: int): int
    requires Sized(st) && 0 <= i < |st.readPoints|
  {
    if p.averageData then Min(st.averagedIndex[i], p.numCycles) else Min(st.readPoints[i], p.maxPoints)
  }

  /** The smallest filled count over channels `0..k`. */
  function MinFilled(p: Params, st: AcqState, k: nat): (m: int)
    requires Sized(st) && 1 <= k <= |st.readPoints|
    ensures forall i :: 0 <= i < k ==> m <= Filled(p, st, i)
    ensures exists i :: 0 <= i < k && m == Filled(p, st, i)
  {
    if k == 1 then Filled(p, st, 0) else Min(MinFilled(p, st, k - 1), Filled(p, st, k - 1))
  }

  /** The save step: saved_data_index becomes the smallest filled count; with no channel the count is never bound. */
  function SaveStep(p: Params, st: AcqState): (r: Result<AcqState, AcqError>)
    requires Sized(st)
    ensures r.Success? ==> Sized(r.value) && |r.value.readPoints| == |st.readPoints|
  {
    if |st.readPoints| == 0 then Failure(NoChannels)
    else Success(st.(savedDataIndex := MinFilled(p, st, |st.readPoints|)))
  }

  /** The loop computing smallest_array_size. */
  method SaveProgress(p: Params, st: AcqState) returns (r: Result<AcqState, AcqError>)
    requires Sized(st)
    ensures r == SaveStep(p, st)
  {
    var n := |st.readPoints|;
    if n == 0 {
      return Failure(NoChannels);
    }
    var smallest := Filled(p, st, 0);
    for i := 1 to n
      invariant smallest == MinFilled(p, st, i)
    {
      smallest := Min(smallest, Filled(p, st, i));
    }
    r := Success(st.(savedDataIndex := smallest));
  }

  /* ---------------- The loop ---------------- */

  /** Sizes numpy accepts for the data arrays and the axes built before the loop. */
  predicate Valid(p: Params)
  {
    p.pointsPerCycle >= 0 && p.numCycles >= 0 && p.maxPoints >= 0
  }

  /** One pass of the while loop. */
  function Iterate(p: Params, st: AcqState, poll: Poll): (r: Result<AcqState, AcqError>)
    requires Valid(p) && Sized(st) && |poll.channels| == |st.readPoints|
    ensures r.Success? ==> Sized(r.value) && |r.value.readPoints| == |st.readPoints|
  {
    var s1 := if poll.logTick then TimeoutTick(p, st) else st;
    match ChannelsFrom(p, s1, poll.channels, 0)
    case Failure(e) => Failure(e)
    case Success(s2) => if p.saveData then SaveStep(p, s2) else Success(s2)
  }

  predicate AllRead(st: AcqState)
  {
    forall i :: 0 <= i < |st.dataAllRead| ==> st.dataAllRead[i]
  }

  /** `(not all(data_all_read) or hvi_done.read() == 0) and not stop_event.is_set()`. */
  predicate Continues(st: AcqState, hviDone: int)
  {
    (!AllRead(st) || hviDone == 0) && !st.stopped
  }

  /** The loop run over a trace of passes, ending when its condition fails or the trace ends. */
  function Run(p: Params, st: AcqState, trace: seq<Poll>): (r: Result<AcqState, AcqError>)
    requires Valid(p) && Sized(st) && WellFormed(trace, |st.readPoints|)
    ensures r.Success? ==> Sized(r.value) && |r.value.readPoints| == |st.readPoints|
    decreases |trace|
  {
    if trace == [] || !Continues(st, trace[0].hviDone) then Success(st)
    else
      match Iterate(p, st, trace[0])
      case Failure(e) => Failure(e)
      case Success(s) => Run(p, s, trace[1..])
  }

  /** The loop over the channels of one pass. */
  method PollChannels(p: Params, st: AcqState, polls: seq<ChannelPoll>) returns (r: Result<AcqState, AcqError>)
    requires Valid(p) && Sized(st) && |polls| == |st.readPoints|
    ensures r == ChannelsFrom(p, st, polls, 0)
  {
    var s := st;
    var n := |polls|;
    for i := 0 to n
      invariant Sized(s) && |s.readPoints| == n
      invariant ChannelsFrom(p, s, polls, i) == ChannelsFrom(p, st, polls, 0)
    {
      var cp := polls[i];
      ChannelsFromStep(p, s, polls, i);
      if cp.ready > 0 {
        var ingested := Ingest(p, s, i, cp.ready);
        if ingested.Failure? {
          return Failure(ingested.error);
        }
        if p.countdown && p.maxPoints == 0 {
          return Failure(ProgressDivisionByZero(i));
        }
        var j := i;
        if p.countdown {
          j := n - 1;
        }
        s := MarkDone(p, ingested.value, j);
      } else {
        s := MarkDone(p, SegmentCheck(p, s, cp), i);
      }
    }
    r := Success(s);
  }

  /** measure_data's while loop over the passes the trace reports. */
  method MeasureData(p: Params, n: nat, trace: seq<Poll>) returns (r: Result<AcqState, AcqError>)
    requires Valid(p) && WellFormed(trace, n)
    ensures r == Run(p, Initial(n), trace)
  {
    var st := Initial(n);
    var k := 0;
    while k < |trace| && Continues(st, trace[k].hviDone)
      invariant 0 <= k <= |trace| && Sized(st) && |st.readPoints| == n
      invariant Run(p, st, trace[k..]) == Run(p, Initial(n), trace)
      decreases |trace| - k
    {
      assert trace[k..][1..] == trace[k + 1..];
      var poll := trace[k];
      if poll.logTick {
        st := TimeoutCheck(p, st);
      }
      var polled := PollChannels(p, st, poll.channels);
      if polled.Failure? {
        return Failure(polled.error);
      }
      st := polled.value;
      if p.saveData {
        var saved := SaveProgress(p, st);
        if saved.Failure? {
          return Failure(saved.error);
        }
        st := saved.value;
      }
      k := k + 1;
    }
    r := Success(st);
  }

  /* ---------------- What the loop keeps ---------------- */

  /**
   * The averaging bookkeeping: every point read is either averaged into a
   * full cycle or waiting in the buffer, which holds less than a cycle.
   */
  predicate Drained(p: Params, st: AcqState)
    requires Sized(st)
  {
    forall i :: 0 <= i < |st.readPoints| ==>
      st.averagedIndex[i] * p.pointsPerCycle + st.bufferLen[i] == st.readPoints[i]
      && 0 <= st.bufferLen[i] < p.pointsPerCycle
  }

  /** A data_all_read flag is only ever set for a channel that has all its points. */
  predicate FlagsSound(p: Params, st: AcqState)
    requires Sized(st)
  {
    forall i :: 0 <= i < |st.readPoints| ==> st.dataAllRead[i] ==> st.readPoints[i] >= p.maxPoints
  }

  /** saved_data_index never passes a row that some channel has not filled. */
  predicate SavedWithin(p: Params, st: AcqState)
    requires Sized(st)
  {
    forall i :: 0 <= i < |st.readPoints| ==> st.savedDataIndex <= Filled(p, st, i)
  }

  predicate Inv(p: Params, st: AcqState)
  {
    && Sized(st)
    && (forall i :: 0 <= i < |st.readPoints| ==> st.readPoints[i] >= 0 && st.averagedIndex[i] >= 0)
    && FlagsSound(p, st) && SavedWithin(p, st)
    && (p.averageData && p.pointsPerCycle > 0 ==> Drained(p, st))
    && (p.averageData && p.pointsPerCycle == 0 ==> forall i :: 0 <= i < |st.readPoints| ==> st.readPoints[i] == 0)
  }

  /**
   * How a state can move forward: per channel the read points and averaged
   * cycles only grow and a completion flag stays set; the segment count only
   * grows and the actions sent to the digitizer are only extended.
   */
  predicate Progressed(a: AcqState, b: AcqState)
    requires Sized(a) && Sized(b)
  {
    && |b.readPoints| == |a.readPoints|
    && (forall i :: 0 <= i < |a.readPoints| ==>
          && a.readPoints[i] <= b.readPoints[i] && a.averagedIndex[i] <= b.averagedIndex[i]
          && (a.dataAllRead[i] ==> b.dataAllRead[i]))
    && a.segmentsMeasured <= b.segmentsMeasured
    && a.actions <= b.actions
  }

  lemma ProgressedTransitive(a: AcqState, b: AcqState, c: AcqState)
    requires Sized(a) && Sized(b) && Sized(c) && Progressed(a, b) && Progressed(b, c)
    ensures Progressed(a, c)
  {
    assert a.actions <= c.actions by {
      assert a.actions == b.actions[..|a.actions|];
      assert b.actions == c.actions[..|b.actions|];
      assert c.actions[..|b.actions|][..|a.actions|] == c.actions[..|a.actions|];
    }
  }

  lemma InitialInv(p: Params, n: nat)
    requires Valid(p)
    ensures Inv(p, Initial(n))
  {
    var st := Initial(n);
    forall i | 0 <= i < n
      ensures st.averagedIndex[i] * p.pointsPerCycle + st.bufferLen[i] == st.readPoints[i]
    {
      assert st.averagedIndex[i] == 0;
    }
    forall i | 0 <= i < n
      ensures st.savedDataIndex <= Filled(p, st, i)
    {
      assert st.readPoints[i] == 0 && st.averagedIndex[i] == 0;
    }
  }

  /** Folding `ready` points into a drained buffer of `buf` points keeps it drained. */
  lemma DrainArithmetic(idx: int, buf: int, rp: int, ppc: int, ready: int)
    requires ppc > 0 && ready > 0 && 0 <= buf < ppc && idx * ppc + buf == rp
    requires buf + ready >= ppc
    ensures var size := buf + ready; var nb := size / ppc;
      && nb >= 1
      && (idx + nb) * ppc + (size - nb * ppc) == rp + ready
      && 0 <= size - nb * ppc < ppc
  {
    var size := buf + ready;
    var nb := size / ppc;
    assert size == nb * ppc + size % ppc;
    assert (idx + nb) * ppc == idx * ppc + nb * ppc;
    ProductSign(ppc, nb);
  }

  /** One channel's read keeps the invariant and only moves the state forward. */
  lemma IngestKeeps(p: Params, st: AcqState, i: int, ready: int)
    requires Valid(p) && Inv(p, st) && 0 <= i < |st.readPoints| && ready > 0
    requires Ingest(p, st, i, ready).Success?
    ensures var r := Ingest(p, st, i, ready).value;
      && Inv(p, r) && Progressed(st, r)
      && r.readPoints == st.readPoints[i := st.readPoints[i] + ready]
      && (forall j :: 0 <= j < |r.readPoints| ==> r.timeoutCounter[j] == 0)
      && r.dataAllRead == st.dataAllRead && r.segmentsMeasured == st.segmentsMeasured
      && r.actions == st.actions && r.stopped == st.stopped
  {
    var r := Ingest(p, st, i, ready).value;
    IngestShape(p, st, i, ready);
    if p.averageData && p.pointsPerCycle > 0 {
      IngestDrained(p, st, i, ready);
    }
    forall j | 0 <= j < |st.readPoints|
      ensures Filled(p, st, j) <= Filled(p, r, j)
    {
    }
  }

  /** What the ingestion changes: channel `i`'s count and buffer, the timeout counters, the end-of-data marker. */
  lemma IngestShape(p: Params, st: AcqState, i: int, ready: int)
    requires Valid(p) && Sized(st) && 0 <= i < |st.readPoints| && ready > 0
    requires Ingest(p, st, i, ready).Success?
    ensures var r := Ingest(p, st, i, ready).value;
      && r.readPoints == st.readPoints[i := st.readPoints[i] + ready]
      && (forall j :: 0 <= j < |r.readPoints| ==> r.timeoutCounter[j] == 0)
      && (forall j :: 0 <= j < |r.readPoints| && j != i ==>
            r.averagedIndex[j] == st.averagedIndex[j] && r.bufferLen[j] == st.bufferLen[j])
      && st.averagedIndex[i] <= r.averagedIndex[i]
      && r.dataAllRead == st.dataAllRead && r.segmentsMeasured == st.segmentsMeasured
      && r.actions == st.actions && r.stopped == st.stopped && r.savedDataIndex == st.savedDataIndex
  {
  }

  /** In averaging mode the whole cycles of channel `i`'s buffer are moved into the averaged count. */
  lemma IngestDrained(p: Params, st: AcqState, i: int, ready: int)
    requires Valid(p) && Inv(p, st) && 0 <= i < |st.readPoints| && ready > 0
    requires p.averageData && p.pointsPerCycle > 0
    requires Ingest(p, st, i, ready).Success?
    ensures Drained(p, Ingest(p, st, i, ready).value)
  {
    IngestShape(p, st, i, ready);
    var size := st.bufferLen[i] + ready;
    if size >= p.pointsPerCycle {
      DrainArithmetic(st.averagedIndex[i], st.bufferLen[i], st.readPoints[i], p.pointsPerCycle, ready);
    }
  }

  /** The segment check only counts segments and sends actions. */
  lemma SegmentCheckKeeps(p: Params, st: AcqState, cp: ChannelPoll)
    requires Inv(p, st)
    ensures var r := SegmentCheck(p, st, cp);
      && Sized(r) && Inv(p, r) && Progressed(st, r)
      && r.readPoints == st.readPoints && r.timeoutCounter == st.timeoutCounter
  {
    var r := SegmentCheck(p, st, cp);
    assert forall j :: 0 <= j < |st.readPoints| ==> Filled(p, r, j) == Filled(p, st, j);
  }

  lemma MarkDoneKeeps(p: Params, st: AcqState, j: int)
    requires Inv(p, st) && 0 <= j < |st.readPoints|
    ensures var r := MarkDone(p, st, j);
      && Inv(p, r) && Progressed(st, r)
      && r.readPoints == st.readPoints && r.timeoutCounter == st.timeoutCounter
      && r.dataAllRead == st.dataAllRead[j := st.dataAllRead[j] || st.readPoints[j] >= p.maxPoints]
  {
    var r := MarkDone(p, st, j);
    assert forall k :: 0 <= k < |st.readPoints| ==> Filled(p, r, k) == Filled(p, st, k);
  }

  lemma ChannelStepKeeps(p: Params, st: AcqState, i: int, cp: ChannelPoll)
    requires Valid(p) && Inv(p, st) && 0 <= i < |st.readPoints|
    requires ChannelStep(p, st, i, cp).Success?
    ensures var r := ChannelStep(p, st, i, cp).value;
      && Inv(p, r) && Progressed(st, r)
      && r.readPoints == (if cp.ready > 0 then st.readPoints[i := st.readPoints[i] + cp.ready] else st.readPoints)
  {
    if cp.ready > 0 {
      ReadyStepKeeps(p, st, i, cp.ready);
    } else {
      IdleStepKeeps(p, st, i, cp);
    }
  }

  /** A channel with points ready: the points are ingested, then the channel is marked. */
  lemma ReadyStepKeeps(p: Params, st: AcqState, i: int, ready: int)
    requires Valid(p) && Inv(p, st) && 0 <= i < |st.readPoints| && ready > 0
    requires Ingest(p, st, i, ready).Success?
    ensures var r := MarkDone(p, Ingest(p, st, i, ready).value, if p.countdown then |st.readPoints| - 1 else i);
      && Inv(p, r) && Progressed(st, r)
      && r.readPoints == st.readPoints[i := st.readPoints[i] + ready]
  {
    var s := Ingest(p, st, i, ready).value;
    IngestKeeps(p, st, i, ready);
    var j := if p.countdown then |st.readPoints| - 1 else i;
    MarkDoneKeeps(p, s, j);
    ProgressedTransitive(st, s, MarkDone(p, s, j));
  }

  /** A channel with no points ready: the segment check, then the channel is marked. */
  lemma IdleStepKeeps(p: Params, st: AcqState, i: int, cp: ChannelPoll)
    requires Valid(p) && Inv(p, st) && 0 <= i < |st.readPoints|
    ensures var r := MarkDone(p, SegmentCheck(p, st, cp), i);
      && Inv(p, r) && Progressed(st, r) && r.readPoints == st.readPoints
  {
    var s := SegmentCheck(p, st, cp);
    SegmentCheckKeeps(p, st, cp);
    MarkDoneKeeps(p, s, i);
    ProgressedTransitive(st, s, MarkDone(p, s, i));
  }

  lemma {:induction false} ChannelsFromKeeps(p: Params, st: AcqState, polls: seq<ChannelPoll>, i: nat)
    requires Valid(p) && Inv(p, st) && |polls| == |st.readPoints| && i <= |polls|
    requires ChannelsFrom(p, st, polls, i).Success?
    ensures Inv(p, ChannelsFrom(p, st, polls, i).value) && Progressed(st, ChannelsFrom(p, st, polls, i).value)
    decreases |polls| - i
  {
    if i < |polls| {
      var s := ChannelStep(p, st, i, polls[i]).value;
      ChannelStepKeeps(p, st, i, polls[i]);
      ChannelsFromKeeps(p, s, polls, i + 1);
      ProgressedTransitive(st, s, ChannelsFrom(p, s, polls, i + 1).value);
    }
  }

  lemma TimeoutTickKeeps(p: Params, st: AcqState)
    requires Inv(p, st)
    ensures Inv(p, TimeoutTick(p, st)) && Progressed(st, TimeoutTick(p, st))
  {
    var r := TimeoutTick(p, st);
    assert forall j :: 0 <= j < |st.readPoints| ==> Filled(p, r, j) == Filled(p, st, j);
  }

  /** The save step moves saved_data_index forward, to the smallest filled count. */
  lemma SaveStepKeeps(p: Params, st: AcqState)
    requires Inv(p, st) && SaveStep(p, st).Success?
    ensures var r := SaveStep(p, st).value;
      && Inv(p, r) && Progressed(st, r)
      && st.savedDataIndex <= r.savedDataIndex
      && exists i :: 0 <= i < |r.readPoints| && r.savedDataIndex == Filled(p, r, i)
  {
    var r := SaveStep(p, st).value;
    assert forall j :: 0 <= j < |st.readPoints| ==> Filled(p, r, j) == Filled(p, st, j);
    var k :| 0 <= k < |st.readPoints| && r.savedDataIndex == Filled(p, st, k);
  }

  /**
   * One pass of the loop keeps the invariant, only moves the state forward
   * and, when saving, never moves saved_data_index back.
   */
  lemma IterateKeeps(p: Params, st: AcqState, poll: Poll)
    requires Valid(p) && Inv(p, st) && |poll.channels| == |st.readPoints|
    requires Iterate(p, st, poll).Success?
    ensures var r := Iterate(p, st, poll).value;
      Inv(p, r) && Progressed(st, r) && st.savedDataIndex <= r.savedDataIndex
  {
    var s1 := if poll.logTick then TimeoutTick(p, st) else st;
    if poll.logTick {
      TimeoutTickKeeps(p, st);
    }
    var s2 := ChannelsFrom(p, s1, poll.channels, 0).value;
    ChannelsFromKeeps(p, s1, poll.channels, 0);
    ProgressedTransitive(st, s1, s2);
    assert s1.savedDataIndex == st.savedDataIndex;
    SavedIndexUnchanged(p, s1, poll.channels, 0);
    if p.saveData {
      SaveStepKeeps(p, s2);
      ProgressedTransitive(st, s2, SaveStep(p, s2).value);
    }
  }

  /** Only the save step writes saved_data_index. */
  lemma {:induction false} SavedIndexUnchanged(p: Params, st: AcqState, polls: seq<ChannelPoll>, i: nat)
    requires Valid(p) && Sized(st) && |polls| == |st.readPoints| && i <= |polls|
    requires ChannelsFrom(p, st, polls, i).Success?
    ensures ChannelsFrom(p, st, polls, i).value.savedDataIndex == st.savedDataIndex
    decreases |polls| - i
  {
    if i < |polls| {
      SavedIndexUnchanged(p, ChannelStep(p, st, i, polls[i]).value, polls, i + 1);
    }
  }

  /**
   * Over a whole run: the invariant holds at the end, the read points,
   * averaged cycles, completion flags, segment count and digitizer actions
   * only moved forward, and saved_data_index never moved back.
   */
  lemma {:induction false} RunKeeps(p: Params, st: AcqState, trace: seq<Poll>)
    requires Valid(p) && Inv(p, st) && WellFormed(trace, |st.readPoints|)
    requires Run(p, st, trace).Success?
    ensures var r := Run(p, st, trace).value;
      Inv(p, r) && Progressed(st, r) && st.savedDataIndex <= r.savedDataIndex
    decreases |trace|
  {
    if trace != [] && Continues(st, trace[0].hviDone) {
      var s := Iterate(p, st, trace[0]).value;
      IterateKeeps(p, st, trace[0]);
      assert WellFormed(trace[1..], |s.readPoints|);
      RunKeeps(p, s, trace[1..]);
      ProgressedTransitive(st, s, Run(p, s, trace[1..]).value);
    }
  }

  /** What the whole measurement keeps, from the initial state. */
  lemma MeasureDataKeeps(p: Params, n: nat, trace: seq<Poll>)
    requires Valid(p) && WellFormed(trace, n) && Run(p, Initial(n), trace).Success?
    ensures var r := Run(p, Initial(n), trace).value;
      && |r.readPoints| == n && Inv(p, r)
      && (p.averageData && p.pointsPerCycle > 0 ==> Drained(p, r))
      && (p.averageData && p.pointsPerCycle == 0 ==> forall i :: 0 <= i < n ==> r.readPoints[i] == 0)
      && FlagsSound(p, r) && SavedWithin(p, r)
  {
    InitialInv(p, n);
    RunKeeps(p, Initial(n), trace);
  }

  /* ---------------- Timeout counters ---------------- */

  predicate CountersZero(st: AcqState)
  {
    forall j :: 0 <= j < |st.timeoutCounter| ==> st.timeoutCounter[j] == 0
  }

  /** Once some channel reported ready points, the loop over the channels leaves every timeout counter 0. */
  lemma {:induction false} ChannelsFromZeroesCounters(p: Params, st: AcqState, polls: seq<ChannelPoll>, i: nat)
    requires Valid(p) && Sized(st) && |polls| == |st.readPoints| && i <= |polls|
    requires ChannelsFrom(p, st, polls, i).Success?
    requires CountersZero(st) || exists j :: i <= j < |polls| && polls[j].ready > 0
    ensures CountersZero(ChannelsFrom(p, st, polls, i).value)
    decreases |polls| - i
  {
    if i < |polls| {
      var s := ChannelStep(p, st, i, polls[i]).value;
      if polls[i].ready > 0 {
        assert CountersZero(s);
      } else {
        assert s.timeoutCounter == st.timeoutCounter;
        assert CountersZero(s) || exists j :: i + 1 <= j < |polls| && polls[j].ready > 0;
      }
      ChannelsFromZeroesCounters(p, s, polls, i + 1);
    }
  }

  /** Without ready points anywhere, the loop over the channels leaves the timeout counters as they were. */
  lemma {:induction false} ChannelsFromKeepsCounters(p: Params, st: AcqState, polls: seq<ChannelPoll>, i: nat)
    requires Valid(p) && Sized(st) && |polls| == |st.readPoints| && i <= |polls|
    requires ChannelsFrom(p, st, polls, i).Success?
    requires forall j :: i <= j < |polls| ==> polls[j].ready <= 0
    ensures ChannelsFrom(p, st, polls, i).value.timeoutCounter == st.timeoutCounter
    decreases |polls| - i
  {
    if i < |polls| {
      var s := ChannelStep(p, st, i, polls[i]).value;
      assert s.timeoutCounter == st.timeoutCounter;
      ChannelsFromKeepsCounters(p, s, polls, i + 1);
    }
  }

  /**
   * After a pass, every timeout counter is 0 when some channel reported
   * ready points; otherwise a counter changed only on a log tick, and then
   * grew by one exactly for a stalled channel.
   */
  lemma IterateCounters(p: Params, st: AcqState, poll: Poll)
    requires Valid(p) && Sized(st) && |poll.channels| == |st.readPoints|
    requires Iterate(p, st, poll).Success?
    ensures var r := Iterate(p, st, poll).value;
      && ((exists j :: 0 <= j < |poll.channels| && poll.channels[j].ready > 0) ==> CountersZero(r))
      && ((forall j :: 0 <= j < |poll.channels| ==> poll.channels[j].ready <= 0) ==>
            forall i :: 0 <= i < |st.readPoints| ==>
              r.timeoutCounter[i]
                == st.timeoutCounter[i] + (if poll.logTick && Stalled(st, i) then 1 else 0))
  {
    var s1 := if poll.logTick then TimeoutTick(p, st) else st;
    if exists j :: 0 <= j < |poll.channels| && poll.channels[j].ready > 0 {
      ChannelsFromZeroesCounters(p, s1, poll.channels, 0);
    } else {
      ChannelsFromKeepsCounters(p, s1, poll.channels, 0);
    }
  }

  /* ---------------- Segments ---------------- */

  /**
   * A channel without ready points whose since-config count reached the
   * segment size completes a segment: the count grows by one; the digitizer
   * is left alone after the last segment, configured for the remaining
   * `num_cycles - cycles_per_segment * (num_segments - 1)` cycles after the
   * second last, and for a full segment otherwise; then the since-config
   * register is reset. Short of the segment size, nothing happens.
   */
  lemma SegmentReconfiguration(p: Params, st: AcqState, i: int, cp: ChannelPoll)
    requires Valid(p) && Sized(st) && 0 <= i < |st.readPoints| && cp.ready <= 0
    ensures ChannelStep(p, st, i, cp).Success?
    ensures var r := ChannelStep(p, st, i, cp).value;
      var m := st.segmentsMeasured + 1;
      && (cp.cyclesSinceConfig < cp.cyclesInSegment ==>
            r.segmentsMeasured == st.segmentsMeasured && r.actions == st.actions)
      && (cp.cyclesSinceConfig >= cp.cyclesInSegment ==>
            && r.segmentsMeasured == m
            && (m == p.numSegments ==> r.actions == st.actions + [ResetCyclesSinceConfig])
            && (m == p.numSegments - 1 ==>
                  r.actions == st.actions
                    + [ConfigureLastSegment(p.numCycles - p.cyclesPerSegment * (p.numSegments - 1)),
                       ResetCyclesSinceConfig])
            && (m != p.numSegments && m != p.numSegments - 1 ==>
                  r.actions == st.actions + [ConfigureFullSegment, ResetCyclesSinceConfig]))
  {
  }

  /** A channel that reports ready points never touches the segment bookkeeping. */
  lemma ReadLeavesSegments(p: Params, st: AcqState, i: int, cp: ChannelPoll)
    requires Valid(p) && Sized(st) && 0 <= i < |st.readPoints| && cp.ready > 0
    requires ChannelStep(p, st, i, cp).Success?
    ensures var r := ChannelStep(p, st, i, cp).value;
      r.segmentsMeasured == st.segmentsMeasured && r.actions == st.actions
  {
  }

  /* ---------------- Reading past the end ---------------- */

  /**
   * Without averaging the points go to a row of max_points entries: a read
   * that stays within it succeeds, and one that runs past its end raises.
   */
  lemma ReadWithinRow(p: Params, st: AcqState, i: int, ready: int)
    requires Valid(p) && !p.averageData && Sized(st) && 0 <= i < |st.readPoints| && ready > 0
    requires 0 <= st.readPoints[i]
    ensures st.readPoints[i] + ready <= p.maxPoints ==> Ingest(p, st, i, ready).Success?
    ensures st.readPoints[i] < p.maxPoints < st.readPoints[i] + ready ==>
      Ingest(p, st, i, ready) == Failure(SliceOverflow(i))
  {
  }

  /* ---------------- Divisions by zero ---------------- */

  /**
   * The settings measure_data builds from a sweep configuration are valid
   * for non-negative step and point counts, and max_points is 0, the case
   * in which the countdown divides by zero, exactly when the points per
   * cycle or the steps of either axis are 0.
   */
  lemma ConfigParams(numSteps1d: int, numSteps2d: int, pointsPerCycle: int, useQdEmulator: bool, maxTime: real,
                     averageData: bool, countdown: bool, saveData: bool)
    requires numSteps1d >= 0 && numSteps2d >= 0 && pointsPerCycle >= 0
    ensures var r := MakeParams(pointsPerCycle, NumCycles(numSteps1d, numSteps2d), useQdEmulator, maxTime,
                                averageData, countdown, saveData);
      && r.Success? && Valid(r.value)
      && r.value.numCycles == numSteps1d * numSteps2d
      && (r.value.maxPoints == 0 <==> pointsPerCycle == 0 || numSteps1d == 0 || numSteps2d == 0)
  {
    var cycles := NumCycles(numSteps1d, numSteps2d);
    if numSteps1d > 0 && numSteps2d > 0 {
      ProductSign(numSteps1d, numSteps2d);
    }
    assert cycles >= 0;
    MakeParamsPlan(pointsPerCycle, cycles, useQdEmulator, maxTime, averageData, countdown, saveData);
    if pointsPerCycle > 0 && cycles > 0 {
      ProductSign(pointsPerCycle, cycles);
    }
  }

  /** With averaging and no points per cycle, every read raises ZeroDivisionError. */
  lemma ZeroPointsPerCycleRaises(p: Params, st: AcqState, i: int, ready: int)
    requires Valid(p) && p.averageData && p.pointsPerCycle == 0
    requires Sized(st) && 0 <= i < |st.readPoints| && ready > 0
    ensures Ingest(p, st, i, ready) == Failure(CycleDivisionByZero(i))
  {
  }

  /**
   * With the countdown on and max_points == 0, a channel's read either fails
   * to store its points or reaches the progress line's division by zero.
   */
  lemma CountdownZeroMaxPointsRaises(p: Params, st: AcqState, i: int, cp: ChannelPoll)
    requires Valid(p) && p.countdown && p.maxPoints == 0
    requires Sized(st) && 0 <= i < |st.readPoints| && cp.ready > 0
    ensures ChannelStep(p, st, i, cp).Failure?
    ensures Ingest(p, st, i, cp.ready).Success? ==> ChannelStep(p, st, i, cp) == Failure(ProgressDivisionByZero(i))
  {
  }

  /** So with the countdown on and max_points == 0, a pass in which some channel has ready points raises. */
  lemma {:induction false} ChannelsFromCountdownRaises(p: Params, st: AcqState, polls: seq<ChannelPoll>, i: nat)
    requires Valid(p) && p.countdown && p.maxPoints == 0
    requires Sized(st) && |polls| == |st.readPoints| && i <= |polls|
    requires exists j :: i <= j < |polls| && polls[j].ready > 0
    ensures ChannelsFrom(p, st, polls, i).Failure?
    decreases |polls| - i
  {
    if polls[i].ready > 0 {
      CountdownZeroMaxPointsRaises(p, st, i, polls[i]);
    } else {
      var s := ChannelStep(p, st, i, polls[i]).value;
      assert exists j :: i + 1 <= j < |polls| && polls[j].ready > 0;
      ChannelsFromCountdownRaises(p, s, polls, i + 1);
    }
  }

  /* ---------------- Completion flags ---------------- */

  /**
   * Which completion flag a channel's turn may set: its own when it had no
   * ready points or the countdown is off, but the last channel's after a
   * read with the countdown on.
   */
  lemma ChannelStepFlags(p: Params, st: AcqState, i: int, cp: ChannelPoll)
    requires Valid(p) && Sized(st) && 0 <= i < |st.readPoints|
    requires ChannelStep(p, st, i, cp).Success?
    ensures var r := ChannelStep(p, st, i, cp).value;
      var j := if cp.ready > 0 && p.countdown then |st.readPoints| - 1 else i;
      r.dataAllRead == st.dataAllRead[j := st.dataAllRead[j] || r.readPoints[j] >= p.maxPoints]
  {
    if cp.ready > 0 {
      var s := Ingest(p, st, i, cp.ready).value;
      IngestKeepsFlags(p, st, i, cp.ready);
      MarkDoneFlag(p, s, if p.countdown then |st.readPoints| - 1 else i);
    } else {
      MarkDoneFlag(p, SegmentCheck(p, st, cp), i);
    }
  }

  lemma IngestKeepsFlags(p: Params, st: AcqState, i: int, ready: int)
    requires Valid(p) && Sized(st) && 0 <= i < |st.readPoints| && ready > 0
    requires Ingest(p, st, i, ready).Success?
    ensures Ingest(p, st, i, ready).value.dataAllRead == st.dataAllRead
  {
  }

  lemma MarkDoneFlag(p: Params, st: AcqState, j: int)
    requires Sized(st) && 0 <= j < |st.readPoints|
    ensures var r := MarkDone(p, st, j);
      && r.readPoints == st.readPoints
      && r.dataAllRead == st.dataAllRead[j := st.dataAllRead[j] || st.readPoints[j] >= p.maxPoints]
  {
  }

  /**
   * With the countdown on, two channels of 2 points each, and channel 1
   * reading both its points at once, channel 1 has all its points but its
   * flag stays unset: the check looked at channel 2.
   */
  lemma CountdownChecksLastChannel()
    ensures var p := Params(1, 2, 2, 2, 1, false, true, false, 10);
      var r := ChannelStep(p, Initial(2), 0, ChannelPoll(2, 0, 0));
      && r.Success?
      && r.value.readPoints[0] == 2 == p.maxPoints
      && !r.value.dataAllRead[0]
  {
    var p := Params(1, 2, 2, 2, 1, false, true, false, 10);
    var st := Initial(2);
    assert Fits(0, 2, 2);
    var s := Ingest(p, st, 0, 2).value;
    assert s.readPoints == [2, 0];
    assert ChannelStep(p, st, 0, ChannelPoll(2, 0, 0)) == Success(MarkDone(p, s, 1));
  }

  /* ---------------- Settings ---------------- */

  /**
   * The settings never fail to build, carry the segment plan of
   * calc_num_cycles_per_segment, and are valid for a non-negative number of
   * points per cycle and a non-negative number of cycles.
   */
  lemma MakeParamsPlan(pointsPerCycle: int, numCycles: int, useQdEmulator: bool, maxTime: real,
                       averageData: bool, countdown: bool, saveData: bool)
    ensures var r := MakeParams(pointsPerCycle, numCycles, useQdEmulator, maxTime, averageData, countdown, saveData);
      var plan := Segments.CalcNumCyclesPerSegment(numCycles, pointsPerCycle, useQdEmulator);
      && r.Success? && plan.Success?
      && r.value.cyclesPerSegment == plan.value.cyclesPerSegment
      && r.value.numSegments == plan.value.numSegments
      && r.value.maxPoints == pointsPerCycle * numCycles
      && (pointsPerCycle >= 0 && numCycles >= 0 ==> Valid(r.value))
  {
    if numCycles * pointsPerCycle > Segments.PointsThreshold(useQdEmulator) {
      Segments.LargeAcquisitionIsCovered(numCycles, pointsPerCycle, useQdEmulator);
    }
    if pointsPerCycle > 0 && numCycles >= 0 {
      ProductSign(pointsPerCycle, numCycles);
    }
  }
}
