/** The drill state machine: the game's process-wide state as one object, the
    three player actions, the per-step drill move and the per-frame tick. */
module Game {
  import opened Geometry
  import opened Terrain
  import opened Ledger
  import opened Scoring

  datatype State = Paused | Drilling | Connection | Stuck | Win | Lose

  const GroundLevel: real := 100.0
  const StartingX: real := 90.0
  const StartingDepth: real := 2.0
  /** Hitting a boulder this many times ends the run. */
  const MaxStuckTimes: nat := 3
  /** Frames a pipe connection takes. */
  const VerticalPipeMovement: int := 5

  /** Where every run starts: just below the surface at the machine. */
  const StartPos := Vec(StartingX, GroundLevel + StartingDepth)

  /** The state a drill step leaves behind, from the checks it makes in order:
      a completed pipe asks for a connection, leaving the canvas loses, and
      then the terrain under the bit has the last word. stuckCount is the
      count before the step. */
  function StepVerdict(pipeDone: bool, outOfBounds: bool, contact: Contact, stuckCount: nat): (s: State)
    ensures s == Win <==> contact == Goal
    ensures s == Stuck <==> contact == Boulder && stuckCount + 1 < MaxStuckTimes
    ensures s == Lose <==>
      || (contact == Boulder && stuckCount + 1 >= MaxStuckTimes)
      || contact == Hazard
      || (contact == Passable && outOfBounds)
    ensures s == Connection <==> contact == Passable && !outOfBounds && pipeDone
    ensures s == Drilling <==> contact == Passable && !outOfBounds && !pipeDone
    ensures s != Paused
  {
    var afterPush := if pipeDone then Connection else Drilling;
    var afterMove := if outOfBounds then Lose else afterPush;
    match contact
    case Goal => Win
    case Boulder => if stuckCount + 1 >= MaxStuckTimes then Lose else Stuck
    case Hazard => Lose
    case Passable => afterMove
  }

  class Simulation {
    /** The starting heading, the unit vector at 0.2967 rad; fixed for the whole game. */
    const startHeading: Vec

    var pos: Vec
    var dir: Vec
    /** Steering sign: 1 curves one way, -1 the other. */
    var bias: int
    var path: seq<Segment>
    var pathPosition: int
    var oldPaths: seq<seq<Segment>>
    var stuckCount: nat
    var sideTrackCount: nat
    var startCount: nat
    var state: State
    var connectionCountDown: int

    ghost predicate Valid()
      reads this
    {
      && (bias == 1 || bias == -1)
      && pathPosition == |path| - 1
      && sideTrackCount <= startCount
      && stuckCount <= MaxStuckTimes
      && (stuckCount == MaxStuckTimes ==> state == Lose)
      && (state == Stuck ==> 1 <= stuckCount < MaxStuckTimes)
      && (state == Connection ==>
            && |path| > 0 && |path| % PipeLength == 0
            && 0 < connectionCountDown <= VerticalPipeMovement)
      && (forall k :: 0 <= k < |oldPaths| ==> 2 <= |oldPaths[k]| <= PipeLength + 1)
    }

    /** The state of a fresh run. */
    ghost predicate AtStart()
      reads this
    {
      && pos == StartPos && dir == startHeading
      && path == [] && oldPaths == [] && pathPosition == -1
      && stuckCount == 0 && startCount == 0 && sideTrackCount == 0
      && bias == 1 && state == Paused
    }

    /** Game setup: the first run starts straight away. */
    constructor (heading: Vec)
      ensures Valid() && AtStart()
      ensures startHeading == heading && connectionCountDown == 0
    {
      startHeading := heading;
      connectionCountDown := 0;
      new;
      StartDrill();
    }

    /** Reset for a new run; the connection countdown is left as it was. */
    method StartDrill()
      modifies this`pos, this`dir, this`path, this`oldPaths, this`pathPosition,
               this`stuckCount, this`startCount, this`sideTrackCount, this`bias, this`state
      ensures Valid() && AtStart()
    {
      pos := StartPos;
      dir := startHeading;
      path := [];
      oldPaths := [];
      pathPosition := -1;
      stuckCount := 0;
      startCount := 0;
      sideTrackCount := 0;
      bias := 1;
      state := Paused;
    }

    method ToggleBias()
      requires Valid()
      modifies this`bias
      ensures Valid()
      ensures bias == -old(bias)
    {
      bias := bias * -1;
    }

    /** The start/pause button: resume (counting a start, and a side-track when
        the bit is next to the last abandoned path), pause, or begin a new run
        after the game has ended. A pipe connection in progress is left alone. */
    method StartStop()
      requires Valid()
      modifies this`pos, this`dir, this`path, this`oldPaths, this`pathPosition,
               this`stuckCount, this`startCount, this`sideTrackCount, this`bias, this`state
      ensures Valid()
      ensures old(state) == Paused || old(state) == Stuck ==>
        && state == Drilling
        && startCount == old(startCount) + 1
        && sideTrackCount == old(sideTrackCount) + (if SideTracks(old(pos), old(oldPaths)) then 1 else 0)
      ensures old(state) == Drilling ==> state == Paused
      ensures old(state) == Drilling || old(state) == Connection ==>
        startCount == old(startCount) && sideTrackCount == old(sideTrackCount)
      ensures old(state) == Connection ==> state == Connection
      ensures old(state) != Win && old(state) != Lose ==>
        && pos == old(pos) && dir == old(dir) && bias == old(bias) && stuckCount == old(stuckCount)
        && path == old(path) && oldPaths == old(oldPaths) && pathPosition == old(pathPosition)
      ensures old(state) == Win || old(state) == Lose ==> AtStart()
    {
      if state == Paused || state == Stuck {
        state := Drilling;
        if SideTracks(pos, oldPaths) {
          sideTrackCount := sideTrackCount + 1;
        }
        startCount := startCount + 1;
      } else if state == Drilling {
        state := Paused;
      } else if state == Win || state == Lose {
        StartDrill();
      }
    }

    /** Pull the drill back to the last pipe joint below the current position,
        archiving what lies beyond it. Refused during a connection and after
        the game has ended. */
    method PullBack()
      requires Valid()
      modifies this`state, this`path, this`oldPaths, this`pathPosition, this`pos, this`dir
      ensures Valid()
      ensures old(state) == Connection || old(state) == Win || old(state) == Lose ==> unchanged(this)
      ensures old(state) == Paused || old(state) == Drilling || old(state) == Stuck ==> state == Paused
      ensures old(oldPaths) <= oldPaths
      ensures |path| + TotalLength(oldPaths) == old(|path| + TotalLength(oldPaths))
      ensures pathPosition == |path| - 1
      ensures var cut := Cut(old(pathPosition));
        (old(state) == Paused || old(state) == Drilling || old(state) == Stuck) && cut > 0 ==>
          && |oldPaths| == old(|oldPaths|) + 1
          && path + oldPaths[|oldPaths| - 1] == old(path)
          && |path| == cut && 0 < |path| < old(|path|) && |path| % PipeLength == 0
          && pos == path[|path| - 1].pos && dir == path[|path| - 1].dir
      ensures Cut(old(pathPosition)) <= 0 ==>
        path == old(path) && oldPaths == old(oldPaths) && pos == old(pos) && dir == old(dir)
    {
      if state == Paused || state == Drilling || state == Stuck {
        state := Paused;
        var cut := Cut(pathPosition);
        if cut > 0 {
          Retract(cut);
        }
      }
    }

    /** Archive path[cut..] and restore the bit to the snapshot just before it. */
    method Retract(cut: int)
      requires Valid() && state == Paused && cut == Cut(pathPosition) && cut > 0
      modifies this`path, this`oldPaths, this`pathPosition, this`pos, this`dir
      ensures Valid()
      ensures path == old(path)[..cut]
      ensures oldPaths == old(oldPaths) + [old(path)[cut..]]
      ensures path + oldPaths[|oldPaths| - 1] == old(path)
      ensures pos == path[|path| - 1].pos && dir == path[|path| - 1].dir
      ensures |path| + TotalLength(oldPaths) == old(|path| + TotalLength(oldPaths))
    {
      PullBackKeepsDrilledLength(path, oldPaths, cut);
      CutOfPath(|path|);
      assert path[..cut] + path[cut..] == path;
      oldPaths := oldPaths + [path[cut..]];
      path := path[..cut];
      pathPosition := |path| - 1;
      pos := path[pathPosition].pos;
      dir := path[pathPosition].dir;
    }

    /** One drill step. The new heading (the old one turned by the steering
        angle times bias, plus the random imprecision) and the scene colour
        lookup are supplied by the caller. */
    method Drill(newDir: Vec, scene: Vec -> Rgba)
      requires Valid() && state == Drilling
      modifies this`dir, this`path, this`pathPosition, this`state,
               this`connectionCountDown, this`pos, this`stuckCount
      ensures Valid()
      ensures dir == newDir
      ensures path == old(path) + [Segment(old(pos), newDir)]
      ensures pathPosition == |path| - 1
      ensures pos == Add(old(pos), newDir)
      ensures connectionCountDown ==
        if |path| % PipeLength == 0 then VerticalPipeMovement else old(connectionCountDown)
      ensures stuckCount == old(stuckCount) + (if Classify(scene(pos)) == Boulder then 1 else 0)
      ensures state == StepVerdict(|path| % PipeLength == 0, OutOfBounds(pos), Classify(scene(pos)), old(stuckCount))
    {
      Advance(newDir);
      Land(scene(pos));
    }

    /** First half of a drill step: record the snapshot, ask for a
        connection when a pipe is complete, move, and lose off the canvas. */
    method Advance(newDir: Vec)
      requires Valid() && state == Drilling
      modifies this`dir, this`path, this`pathPosition, this`state, this`connectionCountDown, this`pos
      ensures Valid() && stuckCount < MaxStuckTimes
      ensures dir == newDir
      ensures path == old(path) + [Segment(old(pos), newDir)]
      ensures pathPosition == |path| - 1
      ensures pos == Add(old(pos), newDir)
      ensures connectionCountDown ==
        if |path| % PipeLength == 0 then VerticalPipeMovement else old(connectionCountDown)
      ensures state == if OutOfBounds(pos) then Lose else if |path| % PipeLength == 0 then Connection else Drilling
    {
      dir := newDir;
      path := path + [Segment(pos, dir)];
      pathPosition := |path| - 1;
      if |path| % PipeLength == 0 {
        state := Connection;
        connectionCountDown := VerticalPipeMovement;
      }
      pos := Add(pos, dir);
      if OutOfBounds(pos) {
        state := Lose;
      }
    }

    /** Second half of a drill step: the terrain under the bit decides. */
    method Land(colour: Rgba)
      requires Valid() && stuckCount < MaxStuckTimes
      modifies this`state, this`stuckCount
      ensures Valid()
      ensures stuckCount == old(stuckCount) + (if Classify(colour) == Boulder then 1 else 0)
      ensures match Classify(colour)
        case Goal => state == Win
        case Boulder => state == (if stuckCount >= MaxStuckTimes then Lose else Stuck)
        case Hazard => state == Lose
        case Passable => state == old(state)
    {
      var contact := Classify(colour);
      if contact == Goal {
        state := Win;
      } else if contact == Boulder {
        state := Stuck;
        stuckCount := stuckCount + 1;
        if stuckCount >= MaxStuckTimes {
          state := Lose;
        }
      } else if contact == Hazard {
        state := Lose;
      }
    }

    /** The game logic of one frame: a drill step while drilling, then one
        frame of an ongoing pipe connection. */
    method Tick(newDir: Vec, scene: Vec -> Rgba)
      requires Valid()
      modifies this`dir, this`path, this`pathPosition, this`state,
               this`connectionCountDown, this`pos, this`stuckCount
      ensures Valid()
      ensures old(state) == Paused || old(state) == Stuck || old(state) == Win || old(state) == Lose ==>
        unchanged(this)
      ensures old(state) == Connection ==>
        && path == old(path) && pos == old(pos) && dir == old(dir) && stuckCount == old(stuckCount)
        && connectionCountDown == old(connectionCountDown) - 1
        && state == (if connectionCountDown <= 0 then Drilling else Connection)
      ensures old(state) == Drilling ==>
        && dir == newDir
        && path == old(path) + [Segment(old(pos), newDir)]
        && pos == Add(old(pos), newDir)
        && stuckCount == old(stuckCount) + (if Classify(scene(pos)) == Boulder then 1 else 0)
        && state == StepVerdict(|path| % PipeLength == 0, OutOfBounds(pos), Classify(scene(pos)), old(stuckCount))
        && connectionCountDown ==
             if state == Connection then VerticalPipeMovement - 1
             else if |path| % PipeLength == 0 then VerticalPipeMovement
             else old(connectionCountDown)
    {
      if state == Drilling {
        Drill(newDir, scene);
      }
      if state == Connection {
        connectionCountDown := connectionCountDown - 1;
        if connectionCountDown <= 0 {
          state := Drilling;
        }
      }
    }

    /** The end-of-game reward, accumulated as the stats screen does.
        remaining is the rounded-up distance from the bit to the goal centre. */
    method EndGameStats(remaining: nat) returns (reward: int)
      requires state != Win ==> IsCeilDistance(remaining, pos, GoalCentre)
      ensures reward == Score(state == Win, path, oldPaths, remaining, startCount, sideTrackCount, stuckCount)
    {
      if state == Win {
        reward := 5000;
      } else {
        reward := 1000;
      }
      if state == Win {
        reward := reward - |path|;
      } else {
        reward := reward - remaining;
      }
      var length := |path|;
      for i := 0 to |oldPaths|
        invariant length == |path| + TotalLength(oldPaths[..i])
      {
        assert oldPaths[..i + 1] == oldPaths[..i] + [oldPaths[i]];
        TotalLengthConcat(oldPaths[..i], [oldPaths[i]]);
        assert TotalLength([oldPaths[i]]) == |oldPaths[i]| by {
          assert [oldPaths[i]][..0] == [];
        }
        length := length + |oldPaths[i]|;
      }
      assert oldPaths[..|oldPaths|] == oldPaths;
      reward := reward - length;
      reward := reward - startCount * StartMult();
      reward := reward - sideTrackCount * SideTrackMult();
      reward := reward - stuckCount * StuckMult();
    }
  }
}
