/** Concrete situations: a perpendicular sweep that cuts, a run of points up
    to a target of 3, and a blade too slow to cut. */
module Scenarios {
  import opened Options
  import opened Geometry
  import opened Decimal
  import opened Scene
  import opened ScoreManagement
  import opened Slicing

  /** Blade (1,0,0) moving with velocity (0,1,0): the cross product is (0,0,1). */
  lemma CrossAlongZ(t: Vec3, velocity: Vec3, n: Vec3)
    requires t.x == 1.0 && t.y == 0.0 && t.z == 0.0
    requires velocity.x == 0.0 && velocity.y == 1.0 && velocity.z == 0.0
    requires n == Vec3(0.0, 0.0, 1.0)
    ensures Cross(t, velocity) == n
  {
  }

  lemma UnitZ(n: Vec3)
    requires n == Vec3(0.0, 0.0, 1.0)
    ensures SqrMag(n) == 1.0
  {
    assert n.x * n.x + n.y * n.y + n.z * n.z == 1.0;
  }

  lemma NegZ(n: Vec3, down: Vec3)
    requires n == Vec3(0.0, 0.0, 1.0) && down == Vec3(0.0, 0.0, -1.0)
    ensures Neg(n) == down
  {
  }

  /** A blade along x swept along y cuts: the plane goes through the blade's
      end with the normal Normalize(0,0,1), which stands for (0,0,1) of length
      1, and its opposite stands for (0,0,-1). */
  lemma PerpendicularSweepCuts(start: Vec3, end: Vec3, velocity: Vec3, n: Vec3, down: Vec3)
    requires Sub(end, start).x == 1.0 && Sub(end, start).y == 0.0 && Sub(end, start).z == 0.0
    requires velocity.x == 0.0 && velocity.y == 1.0 && velocity.z == 0.0
    requires n == Vec3(0.0, 0.0, 1.0) && down == Vec3(0.0, 0.0, -1.0)
    ensures CutPlane(start, end, velocity) == Some(Plane(end, Unit(n)))
    ensures Denotes(CutPlane(start, end, velocity).value.normal, n)
    ensures Denotes(Opposite(CutPlane(start, end, velocity).value.normal), down)
  {
    CrossAlongZ(Sub(end, start), velocity, n);
    UnitZ(n);
    CutPlaneOf(start, end, velocity, n);
    UnitDenotesItself(n);
    DenotesOpposite(Unit(n), n);
    NegZ(n, down);
  }

  /** In that sweep, when the splitter returns hulls, the upper half gets one
      impulse of cutForce along Normalize(0,0,1) and the lower half one along
      its opposite; PerpendicularSweepCuts shows these stand for (0,0,1) and
      (0,0,-1). Together, for a positive cutForce, the upper half is pushed up
      the z axis and the lower half down it. */
  lemma PerpendicularSweepHalves(w: WorldState, blade: Blade, velocity: Vec3, splitter: Splitter,
                                 target: ObjId, n: Vec3, down: Vec3)
    requires Sub(blade.end, blade.start).x == 1.0 && Sub(blade.end, blade.start).y == 0.0
    requires Sub(blade.end, blade.start).z == 0.0
    requires velocity.x == 0.0 && velocity.y == 1.0 && velocity.z == 0.0
    requires n == Vec3(0.0, 0.0, 1.0) && down == Vec3(0.0, 0.0, -1.0)
    requires w.Valid() && target in w.live && Cuts(blade, velocity, splitter, target)
    ensures var r := SliceWorld(w, blade, velocity, splitter, target);
      && w.nextId in r.live && w.nextId + 1 in r.live && target !in r.live
      && w.nextId in r.bodies && w.nextId + 1 in r.bodies
      && r.bodies[w.nextId].impulses == [Impulse(Unit(n), blade.cutForce)]
      && r.bodies[w.nextId + 1].impulses == [Impulse(Opposite(Unit(n)), blade.cutForce)]
  {
    assert CutPlane(blade.start, blade.end, velocity).value.normal == Unit(n) by {
      PerpendicularSweepCuts(blade.start, blade.end, velocity, n, down);
    }
    CutHalves(w, blade, velocity, splitter, target, Unit(n));
  }

  /** A point that leaves the score below the target changes only the score
      and its label. */
  lemma QuietPoint(s: ScoreState)
    requires !s.victoryTriggered && s.score + 1 < s.targetScore
    ensures var r := AddScoreState(s, 1);
      && !Fires(s, 1) && r.score == s.score + 1 && !r.victoryTriggered
      && r.targetScore == s.targetScore
      && r.victoryCanvas == s.victoryCanvas && r.animation == s.animation && r.victoryAudio == s.victoryAudio
  {
  }

  /** The point that reaches the target fires the victory sequence. */
  lemma WinningPoint(s: ScoreState)
    requires !s.victoryTriggered && s.score + 1 == s.targetScore
    ensures var r := AddScoreState(s, 1);
      && Fires(s, 1) && r.score == s.targetScore && r.victoryTriggered
      && r.victoryCanvas == SetActive(s.victoryCanvas, true)
      && r.animation == SetActive(s.animation, true)
      && r.victoryAudio == Play(s.victoryAudio)
  {
  }

  /** With targetScore 3 and every collaborator assigned, three AddScore(1)
      calls fire the victory sequence on the third call only; the label then
      reads "Score: " followed by "3", canvas and animation are active and the
      audio played once. */
  lemma ThirdPointWins(s: ScoreState)
    requires s.score == 0 && s.targetScore == 3 && !s.victoryTriggered && s.scoreText.Some?
    requires s.victoryCanvas == Some(false) && s.animation == Some(false) && s.victoryAudio == Some(0)
    ensures var s1 := AddScoreState(s, 1);
      var s2 := AddScoreState(s1, 1);
      var s3 := AddScoreState(s2, 1);
      && !Fires(s, 1) && !Fires(s1, 1) && Fires(s2, 1)
      && s3.score == 3 && s3.victoryTriggered
      && s3.scoreText == Some("Score: " + "3")
      && s3.victoryCanvas == Some(true) && s3.animation == Some(true) && s3.victoryAudio == Some(1)
  {
    var s1 := AddScoreState(s, 1);
    QuietPoint(s);
    var s2 := AddScoreState(s1, 1);
    QuietPoint(s1);
    WinningPoint(s2);
    IntToDecimalExamples();
  }

  /** A blade moving at speed 0.1 against the default minCutSpeed 0.25 is gated. */
  lemma SlowBladeIsGated(velocity: Vec3)
    requires velocity == Vec3(0.1, 0.0, 0.0)
    ensures SpeedGated(velocity, 0.25)
  {
    assert SqrMag(velocity) == 0.01;
  }
}
