/**
 * Transient floating indicators (damage and healing numbers, "Miss" text,
 * status and item icons): their motion, fade and blended-image draw schedule.
 */
module IndicatorElements {
  import opened Common
  import opened Timers

  /** Total life of an indicator, in milliseconds. */
  const IndicatorTime: nat := 3000
  /** Length of the fade-in at the start of the life. */
  const FadeInTime: nat := 500
  /** Length of the fade-out at the end of the life. */
  const FadeOutTime: nat := 1000
  /** Upward force given to an indicator when it starts. */
  const InitialForce: real := 12.0
  /** Gravity pulling damage numbers down, per second. */
  const IndicatorWeight: real := 26.0
  /** Terminal fall force of a damage number. */
  const MaxFallForce: real := -15.0
  /** Largest horizontal force drawn at start, either way. */
  const MaxXForce: real := 20.0
  /** Constant drift of non-damage indicators, per second. */
  const DriftSpeed: real := 5.0

  datatype IndicatorKind =
    | Damage | Healing | PositiveStatusEffect | NegativeStatusEffect | Item | Text

  /** What an indicator shows: a text label, one icon, or two icons blended over time. */
  datatype Visual =
    | NumberText(amount: nat)
    | MissText
    | StatusIcon(status: nat, intensity: int)
    | ItemIcon(item: nat)
    | BlendedStatusIcons(status: nat, firstIntensity: int, secondIntensity: int)

  datatype Motion = Motion(xForce: real, yForce: real, xRelative: real, yRelative: real)

  /** A damage number bounces on the ground line: never below it, force between terminal fall and launch. */
  predicate DamageMotionValid(m: Motion)
  {
    m.yRelative >= 0.0 && MaxFallForce <= m.yForce <= InitialForce
  }

  /** One frame of the damage bounce: gravity, terminal speed, ground contact, airborne drift. */
  function DamageMove(m: Motion, elapsed: nat): (r: Motion)
    ensures r.xForce == m.xForce
    ensures r.yRelative >= 0.0
    ensures m.yRelative >= 0.0 ==> MaxFallForce <= r.yForce <= MaxReal(m.yForce, 9.0)
    ensures r.yRelative > 0.0 && elapsed > 0 && m.yForce > MaxFallForce ==> r.yForce < m.yForce
    ensures r.yRelative == 0.0 ==> r.xRelative == m.xRelative
  {
    var pulled := m.yForce - elapsed as real / 1000.0 * IndicatorWeight;
    var force := if pulled < MaxFallForce then MaxFallForce else pulled;
    var height := m.yRelative + force;
    if height <= 0.0 then
      var bounced := if AbsReal(force) <= IndicatorWeight / 10.0 then 0.0 else -(force * 0.6);
      Motion(m.xForce, bounced, m.xRelative, 0.0)
    else
      Motion(m.xForce, force, m.xRelative + m.xForce / 1000.0 * elapsed as real, height)
  }

  /** Distance a drifting indicator covers in `elapsed` milliseconds. */
  function Drift(elapsed: nat): real
  {
    DriftSpeed / 1000.0 * elapsed as real
  }

  /** One frame of motion for an indicator of the given kind. */
  function Move(kind: IndicatorKind, m: Motion, elapsed: nat): (r: Motion)
    ensures r.xForce == m.xForce
    ensures kind == Damage && DamageMotionValid(m) ==> DamageMotionValid(r)
    ensures kind != Damage ==> r.yForce == m.yForce
  {
    match kind
    case Damage => DamageMove(m, elapsed)
    case Healing | PositiveStatusEffect => m.(yRelative := m.yRelative + Drift(elapsed))
    case Item | NegativeStatusEffect => m.(yRelative := m.yRelative - Drift(elapsed))
    case Text => m.(xRelative := m.xRelative - Drift(elapsed))
  }

  /** Motion after a sequence of frames. */
  function MoveAll(kind: IndicatorKind, m: Motion, es: seq<nat>): Motion
    decreases |es|
  {
    if es == [] then m else MoveAll(kind, Move(kind, m, es[0]), es[1..])
  }

  /** However many frames pass, a damage number stays on or above the ground line with bounded force. */
  lemma {:induction false} DamageStaysBounded(m: Motion, es: seq<nat>)
    requires DamageMotionValid(m)
    ensures DamageMotionValid(MoveAll(Damage, m, es))
    decreases |es|
  {
    if es != [] {
      DamageStaysBounded(Move(Damage, m, es[0]), es[1..]);
    }
  }

  /** Healing and positive-status indicators rise, item and negative-status ones sink, "Miss" slides left, at 5 units per second. */
  lemma {:induction false} DriftIsLinear(kind: IndicatorKind, m: Motion, es: seq<nat>)
    requires kind != Damage
    ensures var r := MoveAll(kind, m, es);
      && r.yForce == m.yForce && r.xForce == m.xForce
      && (kind in {Healing, PositiveStatusEffect} ==> r.yRelative == m.yRelative + Drift(Sum(es)) && r.xRelative == m.xRelative)
      && (kind in {Item, NegativeStatusEffect} ==> r.yRelative == m.yRelative - Drift(Sum(es)) && r.xRelative == m.xRelative)
      && (kind == Text ==> r.xRelative == m.xRelative - Drift(Sum(es)) && r.yRelative == m.yRelative)
    decreases |es|
  {
    if es != [] {
      DriftIsLinear(kind, Move(kind, m, es[0]), es[1..]);
    }
  }

  /**
   * Fade rule over the timer: ramp in over the first 500 ms, ramp out over
   * the last 1000 ms, opaque in between. The first branch needs the timer to
   * be running and paused at once, so it never applies.
   */
  function DrawAlpha(t: Timer): (a: real)
    requires t.Valid()
    ensures 0.0 <= a <= 1.0
    ensures t.duration == IndicatorTime ==> (a == 0.0 <==> t.expired == 0 || t.expired == t.duration)
    ensures t.duration == IndicatorTime ==> (a == 1.0 <==> FadeInTime <= t.expired <= IndicatorTime - FadeOutTime)
  {
    if t.state == Running && t.state == Paused then 0.0
    else if t.expired < FadeInTime then t.expired as real / FadeInTime as real
    else if t.TimeLeft() < FadeOutTime then t.TimeLeft() as real / FadeOutTime as real
    else 1.0
  }

  /** Over a full life the fade rises until 2000 ms and falls afterwards. */
  lemma AlphaRisesThenFalls(t1: Timer, t2: Timer)
    requires t1.Valid() && t2.Valid() && t1.duration == IndicatorTime && t2.duration == IndicatorTime
    requires t1.expired <= t2.expired
    ensures t2.expired <= IndicatorTime - FadeOutTime ==> DrawAlpha(t1) <= DrawAlpha(t2)
    ensures t1.expired >= FadeInTime ==> DrawAlpha(t1) >= DrawAlpha(t2)
  {
  }

  /** Which image a blended indicator draws, and with what alpha. */
  datatype Layer = SingleImage | FirstImage | SecondImage

  datatype Blit = Blit(layer: Layer, alpha: real)

  /** Boundaries of the blended schedule, derived from the total life by integer division. */
  const OpaqueFirstEnd: nat := IndicatorTime / 4
  const CrossfadeEnd: nat := IndicatorTime / 2
  const OpaqueSecondEnd: nat := IndicatorTime / 3 * 2

  /** Alpha of the first image while the two images cross-fade. */
  function CrossfadeAlpha(expired: nat): (a: real)
    requires OpaqueFirstEnd < expired <= CrossfadeEnd
    ensures 0.0 <= a < 0.75
  {
    (CrossfadeEnd - expired) as real / 1000.0
  }

  /**
   * Five-phase schedule of a blended indicator: fade in the first image,
   * show it opaque, cross-fade to the second, show the second opaque, fade it out.
   * `alpha` is the element's current fade alpha.
   */
  function BlendedBlits(expired: nat, alpha: real): (bs: seq<Blit>)
    requires 0.0 <= alpha <= 1.0
    ensures 1 <= |bs| <= 2
    ensures forall b | b in bs :: 0.0 <= b.alpha <= 1.0 && b.layer != SingleImage
    ensures (exists b | b in bs :: b.layer == FirstImage) <==> expired <= CrossfadeEnd
    ensures (exists b | b in bs :: b.layer == SecondImage) <==> expired > OpaqueFirstEnd
    ensures |bs| == 2 ==> bs[0].alpha + bs[1].alpha == 1.0
    ensures OpaqueFirstEnd < expired <= OpaqueSecondEnd ==> bs[|bs| - 1].layer == SecondImage
    ensures expired <= FadeInTime ==> bs == [Blit(FirstImage, alpha)]
    ensures expired > OpaqueSecondEnd ==> bs == [Blit(SecondImage, alpha)]
  {
    if expired <= FadeInTime then [Blit(FirstImage, alpha)]
    else if expired <= OpaqueFirstEnd then [Blit(FirstImage, 1.0)]
    else if expired <= CrossfadeEnd then
      var first := CrossfadeAlpha(expired);
      [Blit(FirstImage, first), Blit(SecondImage, 1.0 - first)]
    else if expired <= OpaqueSecondEnd then [Blit(SecondImage, 1.0)]
    else [Blit(SecondImage, alpha)]
  }

  /** Everything about an element that changes after it is created. */
  datatype ElementState = ElementState(xOrigin: real, timer: Timer, alpha: real, secondAlpha: real, motion: Motion)

  predicate StateValid(kind: IndicatorKind, s: ElementState)
  {
    && s.timer.Valid() && s.timer.duration == IndicatorTime
    && 0.0 <= s.alpha <= 1.0 && 0.0 <= s.secondAlpha <= 1.0
    && (kind == Damage ==> DamageMotionValid(s.motion))
  }

  /** One update: advance the timer, move, recompute the fade alpha. */
  function Step(kind: IndicatorKind, s: ElementState, elapsed: nat): (r: ElementState)
    requires StateValid(kind, s)
    ensures StateValid(kind, r)
    ensures r.xOrigin == s.xOrigin && r.secondAlpha == s.secondAlpha
    ensures r.timer.expired == Min(s.timer.expired + elapsed, IndicatorTime) || !s.timer.IsRunning()
  {
    var t := s.timer.Tick(elapsed);
    s.(timer := t, motion := Move(kind, s.motion, elapsed), alpha := DrawAlpha(t))
  }

  class IndicatorElement {
    const kind: IndicatorKind
    const visual: Visual
    const yOrigin: real
    var xOrigin: real
    var timer: Timer
    var alpha: real
    var secondAlpha: real
    var xForce: real
    var yForce: real
    var xRelative: real
    var yRelative: real

    function MotionOf(): Motion
      reads this
    {
      Motion(xForce, yForce, xRelative, yRelative)
    }

    function State(): ElementState
      reads this
    {
      ElementState(xOrigin, timer, alpha, secondAlpha, MotionOf())
    }

    ghost predicate Valid()
      reads this
    {
      StateValid(kind, State())
    }

    predicate IsExpired()
      reads this
    {
      timer.IsExpired()
    }

    constructor (x: real, y: real, kind: IndicatorKind, visual: Visual)
      ensures Valid()
      ensures this.kind == kind && this.visual == visual && xOrigin == x && yOrigin == y
      ensures timer == Timer(Initial, IndicatorTime, 0) && alpha == 0.0 && secondAlpha == 0.0
      ensures MotionOf() == Motion(0.0, InitialForce, 0.0, 0.0)
    {
      this.kind := kind;
      this.visual := visual;
      xOrigin := x;
      yOrigin := y;
      timer := Timer(Initial, IndicatorTime, 0);
      alpha := 0.0;
      secondAlpha := 0.0;
      xForce := 0.0;
      yForce := InitialForce;
      xRelative := 0.0;
      yRelative := 0.0;
    }

    /** (Re)arm the timer and push the indicator: a random sideways force and the launch force upward. */
    method Start()
      requires Valid()
      modifies this
      ensures Valid()
      ensures timer == Started(IndicatorTime)
      ensures -MaxXForce <= xForce <= MaxXForce && yForce == InitialForce
      ensures xOrigin == old(xOrigin) && alpha == old(alpha) && secondAlpha == old(secondAlpha)
      ensures xRelative == old(xRelative) && yRelative == old(yRelative)
    {
      if !timer.IsInitial() {
        timer := timer.Reset();
      }
      timer := timer.Run();
      var force: real :| -MaxXForce <= force <= MaxXForce;
      xForce := force;
      yForce := InitialForce;
    }

    method Update(elapsed: nat)
      requires Valid()
      modifies this
      ensures Valid()
      ensures State() == Step(kind, old(State()), elapsed)
    {
      timer := timer.Tick(elapsed);
      UpdateDrawPosition(elapsed);
      ComputeDrawAlpha();
    }

    method UpdateDrawPosition(elapsed: nat)
      modifies this
      ensures MotionOf() == Move(kind, old(MotionOf()), elapsed)
      ensures xOrigin == old(xOrigin) && timer == old(timer) && alpha == old(alpha) && secondAlpha == old(secondAlpha)
    {
      var ms := elapsed as real;
      match kind {
        case Damage =>
          yForce := yForce - ms / 1000.0 * IndicatorWeight;
          if yForce < MaxFallForce {
            yForce := MaxFallForce;
          }
          yRelative := yRelative + yForce;
          if yRelative <= 0.0 {
            yRelative := 0.0;
            if AbsReal(yForce) <= IndicatorWeight / 10.0 {
              yForce := 0.0;
            } else {
              yForce := -(yForce * 0.6);
            }
          }
          if yRelative > 0.0 {
            xRelative := xRelative + xForce / 1000.0 * ms;
          }
        case Healing | PositiveStatusEffect =>
          yRelative := yRelative + DriftSpeed / 1000.0 * ms;
        case Item | NegativeStatusEffect =>
          yRelative := yRelative - DriftSpeed / 1000.0 * ms;
        case Text =>
          xRelative := xRelative - DriftSpeed / 1000.0 * ms;
      }
    }

    method ComputeDrawAlpha()
      requires timer.Valid()
      modifies this`alpha
      ensures alpha == DrawAlpha(timer)
    {
      if timer.state == Running && timer.state == Paused {
        // "not running nor paused, so not drawn": the guard cannot hold
        assert false;
      } else if timer.expired < FadeInTime {
        alpha := timer.expired as real / FadeInTime as real;
      } else if timer.TimeLeft() < FadeOutTime {
        alpha := timer.TimeLeft() as real / FadeOutTime as real;
      } else {
        alpha := 1.0;
      }
    }

    /**
     * Where and how the indicator is drawn: at the origin shifted right by the
     * relative x and up by the relative y. A blended indicator follows the
     * five-phase schedule and, while cross-fading, overwrites both alphas.
     */
    method Draw() returns (x: real, y: real, blits: seq<Blit>)
      requires Valid()
      modifies this`alpha, this`secondAlpha
      ensures Valid()
      ensures x == xOrigin + xRelative && y == yOrigin - yRelative
      ensures !visual.BlendedStatusIcons? ==> blits == [Blit(SingleImage, alpha)] && unchanged(this)
      ensures visual.BlendedStatusIcons? ==> blits == BlendedBlits(timer.expired, old(alpha))
      ensures visual.BlendedStatusIcons? && OpaqueFirstEnd < timer.expired <= CrossfadeEnd ==>
        alpha == CrossfadeAlpha(timer.expired) && secondAlpha == 1.0 - alpha
      ensures !(OpaqueFirstEnd < timer.expired <= CrossfadeEnd) ==> alpha == old(alpha) && secondAlpha == old(secondAlpha)
    {
      x := xOrigin + xRelative;
      y := yOrigin - yRelative;
      if !visual.BlendedStatusIcons? {
        blits := [Blit(SingleImage, alpha)];
      } else if timer.expired <= FadeInTime {
        blits := [Blit(FirstImage, alpha)];
      } else if timer.expired <= IndicatorTime / 4 {
        blits := [Blit(FirstImage, 1.0)];
      } else if timer.expired <= IndicatorTime / 2 {
        alpha := (IndicatorTime / 2 - timer.expired) as real / 1000.0;
        secondAlpha := 1.0 - alpha;
        blits := [Blit(FirstImage, alpha), Blit(SecondImage, secondAlpha)];
      } else if timer.expired <= IndicatorTime / 3 * 2 {
        blits := [Blit(SecondImage, 1.0)];
      } else {
        blits := [Blit(SecondImage, alpha)];
      }
    }
  }
}
