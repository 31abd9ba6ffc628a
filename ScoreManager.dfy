/** ScoreManager: an integer score that every successful cut raises, the
    "Score: n" label showing it, and a victory sequence (canvas, animation,
    audio) that fires once, the first time the score reaches the target. */
module ScoreManagement {
  import opened Options
  import opened Decimal

  /** C#'s `int`. */
  type Int32 = x: int | -0x8000_0000 <= x < 0x8000_0000

  /** `a + b` on C# ints, which wraps around (unchecked arithmetic). */
  function Wrap32(x: int): (r: Int32)
    ensures (r - x) % 0x1_0000_0000 == 0
    ensures -0x8000_0000 <= x < 0x8000_0000 ==> r == x
  {
    (x + 0x8000_0000) % 0x1_0000_0000 - 0x8000_0000
  }

  /** Wrapping twice is wrapping once. */
  lemma Wrap32Add(x: int, y: int)
    ensures Wrap32(Wrap32(x) + y) == Wrap32(x + y)
  {
    var m := 0x1_0000_0000;
    var q := (x + 0x8000_0000) / m;
    assert Wrap32(x) == x - q * m;
    assert Wrap32(x) + y + 0x8000_0000 == (x + y + 0x8000_0000) - q * m;
    ModShift(x + y + 0x8000_0000, q);
  }

  lemma ModShift(a: int, q: int)
    ensures (a - q * 0x1_0000_0000) % 0x1_0000_0000 == a % 0x1_0000_0000
  {
    var m := 0x1_0000_0000;
    var b := a - q * m;
    var r, d := a % m, a / m;
    var r', d' := b % m, b / m;
    assert a == d * m + r && 0 <= r < m;
    assert b == d' * m + r' && 0 <= r' < m;
    assert (d - q - d') * m == r' - r;
  }

  /** The text `$"Score: {_score}"`. */
  function ScoreLabel(score: int): string {
    "Score: " + IntToDecimal(score)
  }

  /** The number a score label shows. */
  function LabelValue(text: string): Option<int> {
    if |text| >= 7 && text[..7] == "Score: " then ParseInt(text[7..]) else None
  }

  lemma {:induction false} LabelShowsScore(score: int)
    ensures LabelValue(ScoreLabel(score)) == Some(score)
  {
    var t := ScoreLabel(score);
    assert t[..7] == "Score: ";
    assert t[7..] == IntToDecimal(score);
    ParseIntToDecimal(score);
  }

  /** What the manager holds and shows. An absent collaborator (unassigned
      Inspector field) is None; a present canvas or animation object carries
      its active flag, a present audio source the number of times it played. */
  datatype ScoreState = ScoreState(
    score: Int32,
    targetScore: Int32,
    victoryTriggered: bool,
    scoreText: Option<string>,
    victoryCanvas: Option<bool>,
    animation: Option<bool>,
    victoryAudio: Option<nat>)

  /** `SetActive(active)` on an object that may be missing. */
  function SetActive(obj: Option<bool>, active: bool): Option<bool> {
    if obj.Some? then Some(active) else None
  }

  /** `Play()` on an audio source that may be missing. */
  function Play(audio: Option<nat>): Option<nat> {
    if audio.Some? then Some(audio.value + 1) else None
  }

  /** TriggerVictory: set the flag, then show the canvas, activate the
      animation and play the audio, each only when it is assigned. */
  function TriggerVictoryState(s: ScoreState): ScoreState {
    s.(victoryTriggered := true,
       victoryCanvas := SetActive(s.victoryCanvas, true),
       animation := SetActive(s.animation, true),
       victoryAudio := Play(s.victoryAudio))
  }

  /** Whether AddScore(value) runs TriggerVictory. */
  predicate Fires(s: ScoreState, value: Int32) {
    !s.victoryTriggered && Wrap32(s.score + value) >= s.targetScore
  }

  /** The state after AddScore(value). */
  function AddScoreState(s: ScoreState, value: Int32): (r: ScoreState)
    ensures r.score == Wrap32(s.score + value)
    ensures -0x8000_0000 <= s.score + value < 0x8000_0000 ==> r.score == s.score + value
    ensures r.targetScore == s.targetScore
    ensures r.scoreText.Some? <==> s.scoreText.Some?
    ensures r.scoreText.Some? ==> r.scoreText.value == ScoreLabel(r.score)
    ensures r.victoryTriggered <==> s.victoryTriggered || r.score >= s.targetScore
    ensures Fires(s, value) ==>
      && (r.victoryCanvas.Some? <==> s.victoryCanvas.Some?)
      && (r.victoryCanvas.Some? ==> r.victoryCanvas.value)
      && (r.animation.Some? <==> s.animation.Some?)
      && (r.animation.Some? ==> r.animation.value)
      && (s.victoryAudio.Some? ==> r.victoryAudio == Some(s.victoryAudio.value + 1))
      && (s.victoryAudio.None? ==> r.victoryAudio.None?)
    ensures !Fires(s, value) ==>
      && r.victoryCanvas == s.victoryCanvas
      && r.animation == s.animation
      && r.victoryAudio == s.victoryAudio
  {
    var score := Wrap32(s.score + value);
    var shown := s.(score := score,
                    scoreText := if s.scoreText.Some? then Some(ScoreLabel(score)) else None);
    if !s.victoryTriggered && score >= s.targetScore then TriggerVictoryState(shown) else shown
  }

  /** The victory effects: canvas, animation and audio. */
  function Effects(s: ScoreState): (Option<bool>, Option<bool>, Option<nat>) {
    (s.victoryCanvas, s.animation, s.victoryAudio)
  }

  /** A run of AddScore calls, in order. */
  function Run(s: ScoreState, values: seq<Int32>): ScoreState
    decreases |values|
  {
    if values == [] then s
    else AddScoreState(Run(s, values[..|values| - 1]), values[|values| - 1])
  }

  lemma RunStep(s: ScoreState, values: seq<Int32>, value: Int32)
    ensures Run(s, values + [value]) == AddScoreState(Run(s, values), value)
  {
    assert (values + [value])[..|values|] == values;
  }

  /** How many calls of the run fire the victory sequence. */
  function Firings(s: ScoreState, values: seq<Int32>): nat
    decreases |values|
  {
    if values == [] then 0
    else
      var before := Run(s, values[..|values| - 1]);
      Firings(s, values[..|values| - 1]) + (if Fires(before, values[|values| - 1]) then 1 else 0)
  }

  function Sum(values: seq<Int32>): int
    decreases |values|
  {
    if values == [] then 0 else Sum(values[..|values| - 1]) + values[|values| - 1]
  }

  /** A run changes the score by the sum of its values, modulo 2^32. */
  lemma {:induction false} RunScore(s: ScoreState, values: seq<Int32>)
    ensures Run(s, values).score == Wrap32(s.score + Sum(values))
    ensures Run(s, values).targetScore == s.targetScore
    decreases |values|
  {
    if values != [] {
      var init := values[..|values| - 1];
      var last := values[|values| - 1];
      RunScore(s, init);
      Wrap32Add(s.score + Sum(init), last);
    }
  }

  /** Idempotence: over any run the victory sequence fires at most once, and
      never once the flag is already set; the flag is never cleared, and it
      is set at the end exactly when it was set before or the run fired. */
  lemma {:induction false} FiresAtMostOnce(s: ScoreState, values: seq<Int32>)
    ensures Firings(s, values) <= 1
    ensures s.victoryTriggered ==> Firings(s, values) == 0
    ensures s.victoryTriggered ==> Run(s, values).victoryTriggered
    ensures Run(s, values).victoryTriggered <==> s.victoryTriggered || Firings(s, values) == 1
    decreases |values|
  {
    if values != [] {
      FiresAtMostOnce(s, values[..|values| - 1]);
    }
  }

  /** Over a run the effects change only through the one firing: afterwards
      they are the victory effects applied to the initial ones, or, if the run
      did not fire, the initial ones. In particular, once victory has been
      triggered, canvas, animation and audio are left untouched. */
  lemma {:induction false} RunEffects(s: ScoreState, values: seq<Int32>)
    ensures Effects(Run(s, values)) ==
      if Firings(s, values) == 1 then Effects(TriggerVictoryState(s)) else Effects(s)
    decreases |values|
  {
    if values != [] {
      var init := values[..|values| - 1];
      RunEffects(s, init);
      FiresAtMostOnce(s, init);
      FiresAtMostOnce(s, values);
    }
  }

  /** The score label, when there is one, always shows the current score. */
  lemma {:induction false} RunLabel(s: ScoreState, values: seq<Int32>)
    requires values != []
    ensures Run(s, values).scoreText.Some? <==> s.scoreText.Some?
    ensures Run(s, values).scoreText.Some? ==>
      LabelValue(Run(s, values).scoreText.value) == Some(Run(s, values).score)
    decreases |values|
  {
    var init := values[..|values| - 1];
    if init != [] {
      RunLabel(s, init);
    }
    LabelShowsScore(Run(s, values).score);
  }

  /** Holder of the static `ScoreManager.Instance`. */
  class Singleton {
    var instance: ScoreManager?

    constructor ()
      ensures instance == null
    {
      instance := null;
    }
  }

  class ScoreManager {
    var score: Int32
    var targetScore: Int32
    var victoryTriggered: bool
    var scoreText: Option<string>
    var victoryCanvas: Option<bool>
    var animation: Option<bool>
    var victoryAudio: Option<nat>
    /** Whether `Destroy(gameObject)` was called on this manager. */
    var destroyed: bool
    /** How many times TriggerVictory has run. */
    ghost var victoryFirings: nat

    ghost predicate Valid()
      reads this
    {
      victoryFirings == if victoryTriggered then 1 else 0
    }

    function State(): ScoreState
      reads this
    {
      ScoreState(score, targetScore, victoryTriggered, scoreText, victoryCanvas, animation, victoryAudio)
    }

    /** The manager as the scene loads it: the Inspector's target and
        collaborators, score 0, victory not triggered. */
    constructor (targetScore: Int32, scoreText: Option<string>, victoryCanvas: Option<bool>,
                 animation: Option<bool>, hasAudio: bool)
      ensures Valid() && !destroyed
      ensures State() == ScoreState(0, targetScore, false, scoreText, victoryCanvas, animation,
                                    if hasAudio then Some(0) else None)
    {
      this.score := 0;
      this.targetScore := targetScore;
      this.victoryTriggered := false;
      this.scoreText := scoreText;
      this.victoryCanvas := victoryCanvas;
      this.animation := animation;
      this.victoryAudio := if hasAudio then Some(0) else None;
      this.destroyed := false;
      this.victoryFirings := 0;
    }

    /** Init-once singleton. A second manager destroys itself and leaves the
        registered one in place; otherwise this one registers and hides the
        canvas and the animation (the animation is switched on and off once
        to warm it up, ending off). */
    method Awake(slot: Singleton)
      modifies this, slot
      ensures old(slot.instance) != null && old(slot.instance) != this ==>
        && slot.instance == old(slot.instance)
        && destroyed
        && State() == old(State())
      ensures old(slot.instance) == null || old(slot.instance) == this ==>
        && slot.instance == this
        && destroyed == old(destroyed)
        && State() == old(State()).(victoryCanvas := SetActive(old(victoryCanvas), false),
                                    animation := SetActive(old(animation), false))
      ensures victoryFirings == old(victoryFirings)
    {
      if slot.instance != null && slot.instance != this {
        destroyed := true;
        return;
      }
      slot.instance := this;

      if victoryCanvas.Some? { victoryCanvas := Some(false); }
      if animation.Some? { animation := Some(false); }

      if animation.Some? {
        animation := Some(true);
        animation := Some(false);
      }
    }

    /** Called by the slicer on every cut. */
    method AddScore(value: Int32)
      requires Valid()
      modifies this
      ensures Valid()
      ensures State() == AddScoreState(old(State()), value)
      ensures victoryFirings == old(victoryFirings) + if Fires(old(State()), value) then 1 else 0
      ensures victoryFirings <= 1
      ensures destroyed == old(destroyed)
    {
      score := Wrap32(score + value);
      if scoreText.Some? { scoreText := Some(ScoreLabel(score)); }

      if !victoryTriggered && score >= targetScore {
        TriggerVictory();
      }
    }

    /** Private; its one caller runs it only while the flag is still false. */
    method TriggerVictory()
      requires Valid() && !victoryTriggered
      modifies this
      ensures Valid() && victoryFirings == old(victoryFirings) + 1
      ensures State() == TriggerVictoryState(old(State()))
      ensures destroyed == old(destroyed)
    {
      victoryTriggered := true;
      victoryFirings := victoryFirings + 1;

      if victoryCanvas.Some? { victoryCanvas := Some(true); }
      if animation.Some? { animation := Some(true); }
      if victoryAudio.Some? { victoryAudio := Some(victoryAudio.value + 1); }
    }
  }
}
