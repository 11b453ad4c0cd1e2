/**
 * measure_diagram: runs the measurement `nb_averaging` times. In averaging
 * mode (averaged data and more than one repetition) each repetition writes
 * to its own `_avg<k>` file. A repetition whose data is missing points on
 * some channel is run once more, into a `_timeout.txt` file.
 *
 * A run itself is abstract: `outcome(k)` gives, per channel, how many
 * non-NaN points the k-th run (counting retries) returned. In averaging mode
 * the live display adds each repetition's data to a running sum of one row
 * and reshapes it to the 2D map, which fails after the first repetition
 * unless exactly one channel is read; with `save_data` the average is
 * finally written to the original path.
 */
module MeasureDiagram {
  import opened Wrappers
  import opened Text

  datatype DiagramSettings = DiagramSettings(
    nbAveraging: int, averageData: bool, livePlotting: bool, plotPyqtgraph: bool,
    saveData: bool, numCycles: int, pointsPerCycle: int)

  datatype DiagramError =
    | PyqtgraphAveraging        // NotImplementedError: live averaging with pyqtgraph
    | OriginalSavepathUnbound   // original_savepath is only bound when live plotting
    | NoMeasurement             // no repetition ran, so `data` is never bound
    | LiveAveragingShape(written: seq<string>)
      // ValueError: the running sum of several channels' data does not reshape
      // to the 2D map; `written` holds the first repetition's files

  /** The files the runs wrote, and the averaged file written after the last repetition. */
  datatype Diagram = Diagram(repetitions: seq<seq<string>>, averaged: Option<string>)

  predicate AveragingMode(s: DiagramSettings)
  {
    s.averageData && s.nbAveraging > 1
  }

  /** The number of points a complete run holds per channel: one per cycle when averaging. */
  function ExpectedPoints(s: DiagramSettings): int
  {
    if s.averageData then s.numCycles else s.numCycles * s.pointsPerCycle
  }

  /** `original[:-4] + "_avg{}".format(i + 1) + original[-4:]`. */
  function AveragePath(original: string, i: nat): string
  {
    DropLast(original, 4) + "_avg" + NatToString(i + 1) + TakeLast(original, 4)
  }

  /** `"{}_timeout.txt".format(savepath[:-4])`. */
  function TimeoutPath(path: string): string
  {
    DropLast(path, 4) + "_timeout.txt"
  }

  /** Some channel returned fewer points than a complete run holds. */
  predicate Incomplete(counts: seq<int>, expected: int)
  {
    exists j :: 0 <= j < |counts| && counts[j] < expected
  }

  /** The file a repetition writes to first. */
  function RepetitionPath(s: DiagramSettings, savepath: string, i: nat): string
  {
    if AveragingMode(s) then AveragePath(savepath, i) else savepath
  }

  /**
   * The files written by repetitions `i..nb_averaging-1`, one block per
   * repetition, when `run` runs were made before repetition `i`.
   */
  function Blocks(s: DiagramSettings, savepath: string, outcome: nat -> seq<int>, i: nat, run: nat): seq<seq<string>>
    decreases s.nbAveraging - i
  {
    if i >= s.nbAveraging then []
    else
      var block := Block(s, savepath, outcome, i, run);
      [block] + Blocks(s, savepath, outcome, i + 1, run + |block|)
  }

  /**
   * Repetition `i`'s files, when `run` runs were made before it: its own
   * file, then its `_timeout.txt` file when the run came back short.
   */
  function Block(s: DiagramSettings, savepath: string, outcome: nat -> seq<int>, i: nat, run: nat): seq<string>
  {
    var path := RepetitionPath(s, savepath, i);
    if Incomplete(outcome(run), ExpectedPoints(s)) then [path, TimeoutPath(path)] else [path]
  }

  /**
   * The data of the first repetition's last run is not of exactly one
   * channel, so adding it to the running sum gives an array the live
   * display cannot reshape to the 2D map.
   */
  predicate LiveSumMisshaped(s: DiagramSettings, savepath: string, outcome: nat -> seq<int>)
  {
    |outcome(|Block(s, savepath, outcome, 0, 0)| - 1)| != 1
  }

  /** The file the average is written to: the original path, with averaging and `save_data`. */
  function AveragedFile(s: DiagramSettings, savepath: string): Option<string>
  {
    if AveragingMode(s) && s.saveData then Some(savepath) else None
  }

  function DiagramRuns(s: DiagramSettings, savepath: string, outcome: nat -> seq<int>)
    : Result<Diagram, DiagramError>
  {
    if s.nbAveraging <= 0 then Failure(NoMeasurement)
    else if AveragingMode(s) && s.plotPyqtgraph then Failure(PyqtgraphAveraging)
    else if AveragingMode(s) && !s.livePlotting then Failure(OriginalSavepathUnbound)
    else if AveragingMode(s) && LiveSumMisshaped(s, savepath, outcome) then
      Failure(LiveAveragingShape(Block(s, savepath, outcome, 0, 0)))
    else Success(Diagram(Blocks(s, savepath, outcome, 0, 0), AveragedFile(s, savepath)))
  }

  /** measure_diagram's repetition loop, returning the files each repetition's runs wrote. */
  method RunDiagram(s: DiagramSettings, savepath: string, outcome: nat -> seq<int>)
    returns (r: Result<Diagram, DiagramError>)
    ensures r == DiagramRuns(s, savepath, outcome)
  {
    if s.nbAveraging <= 0 {
      return Failure(NoMeasurement);
    }
    var averaging := s.averageData && s.nbAveraging > 1;
    if averaging && s.plotPyqtgraph {
      return Failure(PyqtgraphAveraging);
    }
    if averaging && !s.livePlotting {
      return Failure(OriginalSavepathUnbound);
    }
    var blocks := Repetitions(s, savepath, outcome);
    if blocks.Failure? {
      return Failure(blocks.error);
    }
    var averaged := None;
    if averaging && s.saveData {
      averaged := Some(savepath);
    }
    r := Success(Diagram(blocks.value, averaged));
  }

  /**
   * `for i in range(nb_averaging)`: the repetitions, once the checks at the
   * first one passed. With live averaging the first repetition's data is
   * added to the running sum, which raises when it is not one channel's.
   */
  method Repetitions(s: DiagramSettings, savepath: string, outcome: nat -> seq<int>)
    returns (r: Result<seq<seq<string>>, DiagramError>)
    ensures r == if AveragingMode(s) && s.livePlotting && s.nbAveraging > 0 && LiveSumMisshaped(s, savepath, outcome)
      then Failure(LiveAveragingShape(Block(s, savepath, outcome, 0, 0)))
      else Success(Blocks(s, savepath, outcome, 0, 0))
  {
    var blocks := [];
    var run: nat := 0;
    ghost var all := Blocks(s, savepath, outcome, 0, 0);
    var live := s.averageData && s.nbAveraging > 1 && s.livePlotting;
    var count: nat := if s.nbAveraging > 0 then s.nbAveraging else 0;
    for i := 0 to count
      invariant blocks + Blocks(s, savepath, outcome, i, run) == all
      invariant i > 0 && live ==> !LiveSumMisshaped(s, savepath, outcome)
      invariant i == 0 ==> blocks == [] && run == 0
    {
      var block := Repetition(s, savepath, outcome, i, run);
      ghost var rest := Blocks(s, savepath, outcome, i + 1, run + |block|);
      if live && i == 0 {
        if |outcome(|block| - 1)| != 1 {
          assert LiveSumMisshaped(s, savepath, outcome);
          return Failure(LiveAveragingShape(block));
        }
      }
      AppendBlock(blocks, block, rest, all);
      blocks := blocks + [block];
      run := run + |block|;
    }
    assert live ==> count > 0;
    assert Blocks(s, savepath, outcome, count, run) == [];
    assert blocks == all;
    r := Success(blocks);
  }

  lemma AppendBlock(blocks: seq<seq<string>>, block: seq<string>, rest: seq<seq<string>>, all: seq<seq<string>>)
    requires blocks + ([block] + rest) == all
    ensures (blocks + [block]) + rest == all
  {
    assert blocks + [block] + rest == blocks + ([block] + rest);
  }

  /**
   * One repetition, made after `run` runs: the measurement into the
   * repetition's file and, when it came back short, a second one into the
   * `_timeout.txt` file; returns the files written.
   */
  method Repetition(s: DiagramSettings, savepath: string, outcome: nat -> seq<int>, i: nat, run: nat)
    returns (block: seq<string>)
    requires i < s.nbAveraging
    ensures block == Block(s, savepath, outcome, i, run)
    ensures [block] + Blocks(s, savepath, outcome, i + 1, run + |block|) == Blocks(s, savepath, outcome, i, run)
  {
    var path := savepath;
    if s.averageData && s.nbAveraging > 1 {
      path := DropLast(savepath, 4) + "_avg" + NatToString(i + 1) + TakeLast(savepath, 4);
    }
    var nbPoints := if s.averageData then s.numCycles else s.numCycles * s.pointsPerCycle;
    var redo := MissingPoints(outcome(run), nbPoints);
    if redo {
      block := [path, DropLast(path, 4) + "_timeout.txt"];
    } else {
      block := [path];
    }
    BlocksStep(s, savepath, outcome, i, run);
  }

  /** One unfolding of `Blocks`: repetition `i`'s block, then those of the repetitions after it. */
  lemma BlocksStep(s: DiagramSettings, savepath: string, outcome: nat -> seq<int>, i: nat, run: nat)
    requires i < s.nbAveraging
    ensures var path := RepetitionPath(s, savepath, i);
      var retry := Incomplete(outcome(run), ExpectedPoints(s));
      Blocks(s, savepath, outcome, i, run)
        == [if retry then [path, TimeoutPath(path)] else [path]]
           + Blocks(s, savepath, outcome, i + 1, run + (if retry then 2 else 1))
  {
  }

  /** The check after each run: some channel measured fewer than `nbPoints` non-NaN points. */
  method MissingPoints(counts: seq<int>, nbPoints: int) returns (redo: bool)
    ensures redo == Incomplete(counts, nbPoints)
  {
    redo := false;
    for j := 0 to |counts|
      invariant redo <==> exists k :: 0 <= k < j && counts[k] < nbPoints
    {
      if counts[j] < nbPoints {
        redo := true;
      }
    }
  }

  /** The runs made by repetitions `0..i-1`. */
  function RunsBefore(blocks: seq<seq<string>>, i: nat): nat
    requires i <= |blocks|
  {
    if i == 0 then 0 else RunsBefore(blocks, i - 1) + |blocks[i - 1]|
  }

  /**
   * One repetition's block: its first run writes the repetition's own file,
   * and a second run, into that file's `_timeout.txt`, happens exactly when
   * the first came back with missing points.
   */
  predicate BlockShape(s: DiagramSettings, savepath: string, outcome: nat -> seq<int>,
                       rep: nat, run: nat, block: seq<string>)
  {
    && 1 <= |block| <= 2
    && block[0] == RepetitionPath(s, savepath, rep)
    && (|block| == 2 ==> block[1] == TimeoutPath(block[0]))
    && (|block| == 2 <==> Incomplete(outcome(run), ExpectedPoints(s)))
  }

  /** Repetitions `i..nb_averaging-1` contribute one block each. */
  lemma {:induction false} BlocksLength(s: DiagramSettings, savepath: string, outcome: nat -> seq<int>, i: nat, run: nat)
    requires i <= s.nbAveraging
    ensures |Blocks(s, savepath, outcome, i, run)| == s.nbAveraging - i
    decreases s.nbAveraging - i
  {
    if i < s.nbAveraging {
      var next := run + (if Incomplete(outcome(run), ExpectedPoints(s)) then 2 else 1);
      BlocksLength(s, savepath, outcome, i + 1, next);
    }
  }

  /** The `k`-th block from repetition `i` on is repetition `i + k`'s, made after the runs of the blocks before it. */
  lemma {:induction false} BlockAt(s: DiagramSettings, savepath: string, outcome: nat -> seq<int>, i: nat, run: nat, k: nat)
    requires i + k < s.nbAveraging
    ensures var b := Blocks(s, savepath, outcome, i, run);
      && k < |b|
      && BlockShape(s, savepath, outcome, i + k, run + RunsBefore(b, k), b[k])
    decreases k, 1
  {
    if k == 0 {
      var b := Blocks(s, savepath, outcome, i, run);
      BlockHead(s, savepath, outcome, i, run);
      assert run + RunsBefore(b, 0) == run;
    } else {
      BlockAtShift(s, savepath, outcome, i, run, k);
    }
  }

  /** The step of `BlockAt`: block `k - 1` after the first block is block `k`. */
  lemma {:induction false} BlockAtShift(s: DiagramSettings, savepath: string, outcome: nat -> seq<int>, i: nat, run: nat, k: nat)
    requires 0 < k && i + k < s.nbAveraging
    ensures var b := Blocks(s, savepath, outcome, i, run);
      && k < |b|
      && BlockShape(s, savepath, outcome, i + k, run + RunsBefore(b, k), b[k])
    decreases k, 0
  {
    var b := Blocks(s, savepath, outcome, i, run);
    BlockHead(s, savepath, outcome, i, run);
    var next := run + |b[0]|;
    var rest := Blocks(s, savepath, outcome, i + 1, next);
    assert rest == b[1..];
    BlockAt(s, savepath, outcome, i + 1, next, k - 1);
    ShapeShift(s, savepath, outcome, i, run, k, b, rest);
  }

  /** Block `k - 1` of the tail is block `k` of the whole, made after the first block's runs. */
  lemma ShapeShift(s: DiagramSettings, savepath: string, outcome: nat -> seq<int>, i: nat, run: nat, k: nat,
                   b: seq<seq<string>>, rest: seq<seq<string>>)
    requires |b| >= 1 && rest == b[1..] && 0 < k && k - 1 < |rest|
    requires BlockShape(s, savepath, outcome, i + 1 + (k - 1), run + |b[0]| + RunsBefore(rest, k - 1), rest[k - 1])
    ensures k < |b| && BlockShape(s, savepath, outcome, i + k, run + RunsBefore(b, k), b[k])
  {
    assert b[k] == rest[k - 1];
    RunsBeforeShift(b, rest, k);
  }

  /** The first block from repetition `i` on is repetition `i`'s; the others start one or two runs later. */
  lemma BlockHead(s: DiagramSettings, savepath: string, outcome: nat -> seq<int>, i: nat, run: nat)
    requires i < s.nbAveraging
    ensures var b := Blocks(s, savepath, outcome, i, run);
      && |b| >= 1
      && BlockShape(s, savepath, outcome, i, run, b[0])
      && b[1..] == Blocks(s, savepath, outcome, i + 1, run + |b[0]|)
  {
    BlocksStep(s, savepath, outcome, i, run);
  }

  lemma {:induction false} RunsBeforeShift(b: seq<seq<string>>, rest: seq<seq<string>>, k: nat)
    requires |b| >= 1 && rest == b[1..] && 1 <= k <= |b|
    ensures RunsBefore(b, k) == |b[0]| + RunsBefore(rest, k - 1)
  {
    if k > 1 {
      RunsBeforeShift(b, rest, k - 1);
    }
  }

  /**
   * The whole diagram: it fails before any run exactly in the three cases
   * above, and after the first repetition, with the files it wrote, when
   * live averaging gets data of other than one channel. Otherwise it holds
   * one block per repetition, of one or two runs, and the average goes to
   * the original path exactly with averaging and `save_data`.
   */
  lemma DiagramRunsShape(s: DiagramSettings, savepath: string, outcome: nat -> seq<int>)
    ensures var r := DiagramRuns(s, savepath, outcome);
      && (r.Failure? <==>
            || s.nbAveraging <= 0
            || (AveragingMode(s) && (s.plotPyqtgraph || !s.livePlotting || LiveSumMisshaped(s, savepath, outcome))))
      && (r.Failure? && r.error.LiveAveragingShape? ==>
            AveragingMode(s) && BlockShape(s, savepath, outcome, 0, 0, r.error.written))
      && (r.Success? ==>
            && |r.value.repetitions| == s.nbAveraging
            && (forall k :: 0 <= k < |r.value.repetitions| ==>
                  BlockShape(s, savepath, outcome, k, RunsBefore(r.value.repetitions, k), r.value.repetitions[k]))
            && s.nbAveraging <= RunsBefore(r.value.repetitions, |r.value.repetitions|) <= 2 * s.nbAveraging
            && (r.value.averaged.Some? <==> AveragingMode(s) && s.saveData)
            && (r.value.averaged.Some? ==> r.value.averaged.value == savepath))
  {
    var r := DiagramRuns(s, savepath, outcome);
    if r.Success? {
      AllBlocksShaped(s, savepath, outcome);
    } else if r.error.LiveAveragingShape? {
      BlockHead(s, savepath, outcome, 0, 0);
      BlocksStep(s, savepath, outcome, 0, 0);
    }
  }

  /** Every repetition's block, from the first repetition on, has the shape above. */
  lemma AllBlocksShaped(s: DiagramSettings, savepath: string, outcome: nat -> seq<int>)
    requires s.nbAveraging > 0
    ensures var b := Blocks(s, savepath, outcome, 0, 0);
      && |b| == s.nbAveraging
      && (forall k :: 0 <= k < |b| ==> BlockShape(s, savepath, outcome, k, RunsBefore(b, k), b[k]))
      && s.nbAveraging <= RunsBefore(b, |b|) <= 2 * s.nbAveraging
  {
    var b := Blocks(s, savepath, outcome, 0, 0);
    BlocksLength(s, savepath, outcome, 0, 0);
    forall k | 0 <= k < |b|
      ensures BlockShape(s, savepath, outcome, k, RunsBefore(b, k), b[k]) && 1 <= |b[k]| <= 2
    {
      BlockAt(s, savepath, outcome, 0, 0, k);
    }
    RunsBeforeBounds(b, |b|);
  }

  lemma {:induction false} RunsBeforeBounds(b: seq<seq<string>>, i: nat)
    requires i <= |b| && forall k :: 0 <= k < |b| ==> 1 <= |b[k]| <= 2
    ensures i <= RunsBefore(b, i) <= 2 * i
  {
    if i > 0 {
      RunsBeforeBounds(b, i - 1);
    }
  }

  /** The averaged file never overwrites a repetition's own file. */
  lemma AveragedFileIsNoRepetitionFile(original: string, i: nat)
    ensures AveragePath(original, i) != original
  {
    assert |AveragePath(original, i)| > |original|;
  }

  /** Distinct repetitions in averaging mode write to distinct files. */
  lemma AveragePathsDistinct(original: string, i: nat, j: nat)
    requires i != j
    ensures AveragePath(original, i) != AveragePath(original, j)
  {
    var pre := DropLast(original, 4) + "_avg";
    var post := TakeLast(original, 4);
    var a, b := NatToString(i + 1), NatToString(j + 1);
    NatToStringInjective(i + 1, j + 1);
    MiddleDetermined(pre, a, b, post);
  }

  lemma MiddleDetermined(pre: string, a: string, b: string, post: string)
    ensures pre + a + post == pre + b + post ==> a == b
  {
    if pre + a + post == pre + b + post {
      assert |a| == |b|;
      assert a == (pre + a + post)[|pre|..|pre| + |a|];
    }
  }
}
