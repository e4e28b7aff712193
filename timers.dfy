/**
 * Abstract model of the engine's one-shot countdown timer as the indicator
 * elements and the map camera use it: a state, a duration and the number of
 * milliseconds expired, bounded by the duration.
 */
module Timers {
  import opened Common

  datatype TimerState = Initial | Running | Paused | Finished

  datatype Timer = Timer(state: TimerState, duration: nat, expired: nat) {

    /** Expired time never passes the duration; a fresh timer has not run; a finished one ran to the end. */
    predicate Valid()
    {
      && expired <= duration
      && (state == Initial ==> expired == 0)
      && (state == Finished ==> expired == duration)
    }

    predicate IsInitial() { state == Initial }

    predicate IsRunning() { state == Running }

    predicate IsExpired() { expired >= duration }

    function TimeLeft(): (r: nat)
      requires Valid()
      ensures r + expired == duration
    {
      duration - expired
    }

    /** Back to the initial state, keeping the duration. */
    function Reset(): (t: Timer)
      ensures t.Valid() && t.IsInitial() && t.duration == duration && t.expired == 0
    {
      Timer(Initial, duration, 0)
    }

    function WithDuration(d: nat): (t: Timer)
      requires IsInitial() && expired == 0
      ensures t.Valid() && t.IsInitial() && t.duration == d
    {
      Timer(Initial, d, 0)
    }

    function Run(): (t: Timer)
      requires Valid() && (IsInitial() || state == Running)
      ensures t.Valid() && t.IsRunning() && t.duration == duration && t.expired == expired
    {
      Timer(Running, duration, expired)
    }

    /** One frame of `elapsed` milliseconds; only a running timer advances. */
    function Tick(elapsed: nat): (t: Timer)
      requires Valid()
      ensures t.Valid() && t.duration == duration
      ensures IsRunning() ==> t.expired == Min(expired + elapsed, duration)
      ensures IsRunning() ==> (t.IsRunning() <==> expired + elapsed < duration)
      ensures !IsRunning() ==> t == this
    {
      if state != Running then this
      else if expired + elapsed >= duration then Timer(Finished, duration, duration)
      else Timer(Running, duration, expired + elapsed)
    }

    /** Fraction of the duration that has expired: the one number that, times the duration, gives the expired time. */
    function PercentComplete(): (p: real)
      requires duration > 0
      ensures p * duration as real == expired as real
    {
      expired as real / duration as real
    }
  }

  /** A timer started afresh: what `Reset(); SetDuration(d); Run()` and `Start()` leave. */
  function Started(duration: nat): (t: Timer)
    ensures t.Valid() && t.IsRunning() && t.expired == 0 && t.duration == duration
  {
    Timer(Running, duration, 0)
  }

  /** The timer after a sequence of frames. */
  function TickAll(t: Timer, es: seq<nat>): (r: Timer)
    requires t.Valid()
    ensures r.Valid() && r.duration == t.duration
    decreases |es|
  {
    if es == [] then t else TickAll(t.Tick(es[0]), es[1..])
  }

  lemma {:induction false} StoppedTimerStaysPut(t: Timer, es: seq<nat>)
    requires t.Valid() && !t.IsRunning()
    ensures TickAll(t, es) == t
    decreases |es|
  {
    if es != [] {
      StoppedTimerStaysPut(t.Tick(es[0]), es[1..]);
    }
  }

  /**
   * A running timer expires exactly once the frames add up to the time it
   * had left, and never before; expired time saturates at the duration.
   */
  lemma {:induction false} ExpiresExactlyAtDuration(t: Timer, es: seq<nat>)
    requires t.Valid() && t.IsRunning()
    ensures TickAll(t, es).expired == Min(t.expired + Sum(es), t.duration)
    ensures TickAll(t, es).IsExpired() <==> t.expired + Sum(es) >= t.duration
    decreases |es|
  {
    if es != [] {
      var t1 := t.Tick(es[0]);
      if t1.IsRunning() {
        ExpiresExactlyAtDuration(t1, es[1..]);
      } else {
        StoppedTimerStaysPut(t1, es[1..]);
      }
    }
  }
}
