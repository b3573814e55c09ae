/**
 * Collision sounds (Sounds.js): which collisions are heard, which sound is used and how
 * loud, and the mute switch. Impact strength is the contact's velocity along its normal,
 * supplied by the physics engine.
 */
module Sounds {
  import opened Wrappers
  import opened Physics

  /** The two sounds: 0 is the golf ball for ordinary bodies, 1 the ball for the shot ball. */
  const SoundCount: nat := 2

  /** A sound to play: its index in `sounds` and its volume before muting. */
  datatype Hit = Hit(soundId: nat, volume: real)

  /** The volume for an impact of strength `impact`, scaled down from `startVolume` for soft hits. */
  function CalculateVolume(impact: real, startVolume: real): (r: real)
    ensures impact > 7.0 ==> r == startVolume
    ensures 3.0 < impact < 5.0 ==> r == startVolume * 0.8
    ensures impact < 3.0 ==> r == startVolume * 0.2
    ensures impact == 3.0 || 5.0 <= impact <= 7.0 ==> r == startVolume
    ensures r == startVolume || r == startVolume * 0.8 || r == startVolume * 0.2
    ensures startVolume >= 0.0 ==> 0.0 <= r <= startVolume
  {
    if impact > 7.0 then startVolume
    else if impact < 5.0 && impact > 3.0 then startVolume * 0.8
    else if impact < 3.0 then startVolume * 0.2
    else startVolume
  }

  /** A hit is loud enough above strength 1.5, and only floor hits count for ordinary bodies. */
  function ShouldPlaySound(impact: real, isCollideWithFloor: bool, isShotBall: bool): (r: bool)
    ensures impact <= 1.5 ==> !r
    ensures r <==> impact > 1.5 && (isShotBall || isCollideWithFloor)
  {
    (impact > 1.5 && isCollideWithFloor && !isShotBall) || (impact > 1.5 && isShotBall)
  }

  /**
   * The shot ball is heard only against another body (not itself) whose id is even; with
   * no shot ball (`sphereShotBall` still `null`) it is never heard.
   */
  function CheckIsShotBallCollideWithBalls(isShotBall: bool, shotBall: Option<BodyId>, bj: BodyId): (r: bool)
    ensures r ==> isShotBall && shotBall.Some?
    ensures shotBall.Some? && bj == shotBall.value ==> !r
    ensures bj % 2 == 1 ==> !r
  {
    isShotBall && shotBall.Some? && bj != shotBall.value && bj % 2 == 0
  }

  /**
   * The decision of `playHitSound` for a collision whose contact names `bj` as its second
   * body: the sound and volume to play, or `None` when nothing is played.
   */
  function HitSound(bj: BodyId, impact: real, shotBall: Option<BodyId>, floor: BodyId, isShotBall: bool): (r: Option<Hit>)
    ensures !isShotBall ==> (r.Some? <==> bj == floor && impact > 1.5)
    ensures isShotBall ==> (r.Some? <==> shotBall.Some? && bj != shotBall.value && bj % 2 == 0 && impact > 1.5)
    ensures r.Some? && !isShotBall ==> r.value.soundId == 0 && r.value.volume == CalculateVolume(impact, 0.3)
    ensures r.Some? && isShotBall ==> r.value.soundId == 1 && r.value.volume == CalculateVolume(impact, 1.0)
    ensures r.Some? ==> r.value.soundId < SoundCount
  {
    var soundId := if isShotBall then 1 else 0;
    var startVolume := if isShotBall then 1.0 else 0.3;
    var isCollideWithBalls := if isShotBall then CheckIsShotBallCollideWithBalls(isShotBall, shotBall, bj) else true;
    if !isCollideWithBalls && isShotBall then None
    else
      var isCollideWithFloor := if !isShotBall then floor == bj else false;
      var volume := CalculateVolume(impact, startVolume);
      if ShouldPlaySound(impact, isCollideWithFloor, isShotBall) then Some(Hit(soundId, volume)) else None
  }

  /**
   * The module's audio state: the `isMuted` flag, the sound switch's `active` class and the
   * two `Audio` objects' volumes; `played` records each `play()` by sound index.
   */
  class SoundBoard {
    var isMuted: bool
    var switchActive: bool
    var volumes: seq<real>
    var played: seq<nat>

    ghost predicate Valid()
      reads this
    {
      |volumes| == SoundCount
    }

    /** Module start: not muted, full default volume, the switch as the page renders it. */
    constructor (switchActive: bool)
      ensures Valid() && !isMuted && this.switchActive == switchActive
      ensures volumes == [1.0, 1.0] && played == []
    {
      isMuted := false;
      this.switchActive := switchActive;
      volumes := [1.0, 1.0];
      played := [];
    }

    /** A click on the sound switch toggles its `active` class; sound is muted when it is not active. */
    method ToggleSwitch()
      modifies this`switchActive, this`isMuted
      ensures switchActive == !old(switchActive)
      ensures isMuted == !switchActive
    {
      switchActive := !switchActive;
      isMuted := !switchActive;
    }

    /** `playSound`: rewinds and plays a sound at `volume`, or at volume 0 when muted. */
    method PlaySound(soundId: nat, volume: real)
      requires Valid() && soundId < SoundCount
      modifies this`volumes, this`played
      ensures Valid()
      ensures volumes == old(volumes)[soundId := if isMuted then 0.0 else volume]
      ensures played == old(played) + [soundId]
    {
      volumes := volumes[soundId := if isMuted then 0.0 else volume];
      played := played + [soundId];
    }

    /** `playHitSound`: plays the sound `HitSound` picks for the collision, if any. */
    method PlayHitSound(bj: BodyId, impact: real, shotBall: Option<BodyId>, floor: BodyId, isShotBall: bool)
      requires Valid()
      modifies this`volumes, this`played
      ensures Valid()
      ensures match HitSound(bj, impact, shotBall, floor, isShotBall)
              case None => volumes == old(volumes) && played == old(played)
              case Some(h) =>
                && volumes == old(volumes)[h.soundId := if isMuted then 0.0 else h.volume]
                && played == old(played) + [h.soundId]
    {
      var soundId := 0;
      var startVolume := 0.3;
      var isCollideWithFloor := false;
      var isCollideWithBalls := true;
      if isShotBall {
        soundId := 1;
        startVolume := 1.0;
        isCollideWithBalls := CheckIsShotBallCollideWithBalls(isShotBall, shotBall, bj);
      }
      if !isCollideWithBalls && isShotBall {
        return;
      }
      if !isShotBall {
        isCollideWithFloor := floor == bj;
      }
      var volume := CalculateVolume(impact, startVolume);
      if ShouldPlaySound(impact, isCollideWithFloor, isShotBall) {
        PlaySound(soundId, volume);
      }
    }
  }
}
