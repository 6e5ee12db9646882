/** The end-of-run reward shown on the WIN and LOSE screens. */
module Scoring {
  import opened Geometry
  import opened Ledger

  /** Math.ceil(a / b) for a natural a and a positive b. */
  function CeilDiv(a: nat, b: nat): (q: nat)
    requires b > 0
    ensures q * b >= a
    ensures q == 0 || (q - 1) * b < a
  {
    (a + b - 1) / b
  }

  /** Cost of each start, each side-track and each time the bit got stuck. */
  function StartMult(): (m: nat)
  {
    CeilDiv(PipeLength, 40) * 10
  }

  function SideTrackMult(): (m: nat)
  {
    CeilDiv(PipeLength, 20) * 10
  }

  function StuckMult(): (m: nat)
  {
    CeilDiv(PipeLength, 50) * 50
  }

  lemma MultiplierValues()
    ensures StartMult() == 20 && SideTrackMult() == 40 && StuckMult() == 100
  {
  }

  /** Centre of the goal box at surface level: (goal.x + goal.w / 2, groundLevel). */
  const GoalCentre := Vec(550.0, 100.0)

  /** r is Math.ceil(dist(p, q)): the least natural whose square reaches the squared distance. */
  predicate IsCeilDistance(r: nat, p: Vec, q: Vec)
  {
    && (r as real) * (r as real) >= SquaredDist(p, q)
    && (r == 0 || ((r - 1) as real) * ((r - 1) as real) < SquaredDist(p, q))
  }

  /** The reward formula: a base of 5000 on a win and 1000 otherwise, less the
      final pipe length on a win or the rounded-up remaining distance otherwise,
      less all segments ever drilled, less the start, side-track and stuck
      penalties. Nothing clamps it at zero. */
  function Score(won: bool, path: seq<Segment>, oldPaths: seq<seq<Segment>>, remaining: nat,
                 startCount: nat, sideTrackCount: nat, stuckCount: nat): (reward: int)
  {
    (if won then 5000 else 1000)
    - (if won then |path| else remaining)
    - (|path| + TotalLength(oldPaths))
    - startCount * StartMult()
    - sideTrackCount * SideTrackMult()
    - stuckCount * StuckMult()
  }

  /** On a win the live path is charged twice: once as the pipe length, once as drilled length. */
  lemma WinScore(path: seq<Segment>, oldPaths: seq<seq<Segment>>, remaining: nat,
                 startCount: nat, sideTrackCount: nat, stuckCount: nat)
    ensures Score(true, path, oldPaths, remaining, startCount, sideTrackCount, stuckCount)
         == 5000 - 2 * |path| - TotalLength(oldPaths)
            - 20 * startCount - 40 * sideTrackCount - 100 * stuckCount
  {
  }

  lemma LossScore(path: seq<Segment>, oldPaths: seq<seq<Segment>>, remaining: nat,
                  startCount: nat, sideTrackCount: nat, stuckCount: nat)
    ensures Score(false, path, oldPaths, remaining, startCount, sideTrackCount, stuckCount)
         == 1000 - remaining - |path| - TotalLength(oldPaths)
            - 20 * startCount - 40 * sideTrackCount - 100 * stuckCount
  {
  }

  /** Pull-back leaves the drilled length unchanged, so with the remaining
      distance held fixed a losing score is unchanged. A winning score rises by
      the number of archived segments, which are charged once instead of twice.
      (Pull-back also moves the bit, so in play the remaining distance of a
      later loss is measured from wherever the bit ends up.) */
  lemma PullBackKeepsScore(won: bool, path: seq<Segment>, oldPaths: seq<seq<Segment>>, cut: nat,
                           remaining: nat, startCount: nat, sideTrackCount: nat, stuckCount: nat)
    requires cut <= |path|
    ensures !won ==>
      Score(won, path[..cut], oldPaths + [path[cut..]], remaining, startCount, sideTrackCount, stuckCount)
      == Score(won, path, oldPaths, remaining, startCount, sideTrackCount, stuckCount)
    ensures won ==>
      Score(won, path[..cut], oldPaths + [path[cut..]], remaining, startCount, sideTrackCount, stuckCount)
      == Score(won, path, oldPaths, remaining, startCount, sideTrackCount, stuckCount) + (|path| - cut)
  {
  }

  /** A losing run 40 units short, with 300 live and 50 archived segments,
      2 starts, 1 side-track and 1 stuck scores 1000 - 40 - 350 - 40 - 40 - 100. */
  lemma LossExample(path: seq<Segment>, oldPaths: seq<seq<Segment>>)
    requires |path| == 300 && TotalLength(oldPaths) == 50
    ensures Score(false, path, oldPaths, 40, 2, 1, 1) == 430
  {
  }
}
