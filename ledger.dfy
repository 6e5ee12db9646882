/** The path ledger: the snapshots recorded once per drilling step, the
    pipe-length alignment used by pull-back, and the archive of abandoned
    suffixes. */
module Ledger {
  import opened Geometry

  /** Width of the drilling machine image, in canvas units. */
  const MachineWidth: int := 80

  /** Length of one drill pipe relative to the machine width. */
  const PipeLengthMult: real := 0.87688219663

  /** Steps per pipe. */
  const PipeLength: int := 68

  /** The pipe length is the machine-width share, floored, less 2 for the rounded pipe end. */
  lemma PipeLengthDerivation()
    ensures PipeLength == (PipeLengthMult * MachineWidth as real).Floor - 2
  {
  }

  /** One ledger entry: where the bit was before a step, and the heading it took. */
  datatype Segment = Segment(pos: Vec, dir: Vec)

  /** Where pull-back cuts the path: floor((pathPosition - 1) / pipeLength) * pipeLength,
      the largest multiple of the pipe length strictly below pathPosition.
      Dafny's division rounds down for a positive divisor, as Math.floor does. */
  function Cut(pathPosition: int): (cut: int)
    ensures cut % PipeLength == 0
    ensures cut < pathPosition <= cut + PipeLength
  {
    ((pathPosition - 1) / PipeLength) * PipeLength
  }

  /** With pathPosition = |path| - 1, pull-back finds a joint to cut at exactly
      when the path reaches at least two segments past the first pipe; the
      suffix it archives then holds between 2 and PipeLength + 1 segments. */
  lemma {:induction false} CutOfPath(n: nat)
    ensures Cut(n - 1) > 0 <==> n >= PipeLength + 2
    ensures Cut(n - 1) > 0 ==> 2 <= n - Cut(n - 1) <= PipeLength + 1
  {
  }

  /** Number of segments in all archived paths together. */
  function TotalLength(paths: seq<seq<Segment>>): (total: nat)
  {
    if paths == [] then 0 else TotalLength(paths[..|paths| - 1]) + |paths[|paths| - 1]|
  }

  lemma {:induction false} TotalLengthConcat(a: seq<seq<Segment>>, b: seq<seq<Segment>>)
    ensures TotalLength(a + b) == TotalLength(a) + TotalLength(b)
    decreases |b|
  {
    if b == [] {
      assert a + b == a;
    } else {
      var b' := b[..|b| - 1];
      assert (a + b)[..|a + b| - 1] == a + b';
      TotalLengthConcat(a, b');
    }
  }

  /** Pull-back moves segments from the live path to the archive and loses none:
      the drilled length the score charges for is the same before and after. */
  lemma PullBackKeepsDrilledLength(path: seq<Segment>, oldPaths: seq<seq<Segment>>, cut: nat)
    requires cut <= |path|
    ensures |path[..cut]| + TotalLength(oldPaths + [path[cut..]]) == |path| + TotalLength(oldPaths)
  {
  }

  /** The side-track test made when drilling resumes: the most recently archived
      path exists, is non-empty, and its first point is within 1.5 of the bit. */
  predicate SideTracks(pos: Vec, oldPaths: seq<seq<Segment>>)
  {
    && |oldPaths| > 0
    && |oldPaths[|oldPaths| - 1]| > 0
    && Near(pos, oldPaths[|oldPaths| - 1][0].pos)
  }

  /** A step continues the one before it: it starts where the earlier one,
      moving along its heading, ended. */
  predicate Continues(path: seq<Segment>, i: nat)
    requires 0 < i < |path|
  {
    path[i].pos == Add(path[i - 1].pos, path[i - 1].dir)
  }

  /** Pull-back puts the bit on the last kept snapshot. Resuming there is a
      side-track whenever the first archived point is either a step shorter
      than 1.5 along that snapshot's heading, or the same point again (as
      after an earlier pull-back to the same joint, where the next segment
      was recorded at the restored position). */
  lemma ResumeAfterPullBackSideTracks(path: seq<Segment>, oldPaths: seq<seq<Segment>>, cut: nat)
    requires 0 < cut < |path|
    requires
      || (Continues(path, cut)
          && Sq(path[cut - 1].dir.x) + Sq(path[cut - 1].dir.y) < SideTrackThreshold * SideTrackThreshold)
      || path[cut].pos == path[cut - 1].pos
    ensures SideTracks(path[..cut][cut - 1].pos, oldPaths + [path[cut..]])
  {
    var p := path[cut - 1].pos;
    if path[cut].pos == p {
      assert SquaredDist(p, p) == 0.0;
    } else {
      StepIsNear(p, path[cut - 1].dir);
    }
  }
}
