/**
 * The elapsed-time display of the game's interface (src/Interface.jsx): on every frame the
 * callback registered with `addEffect` reads the run's phase and timestamps, picks the
 * elapsed milliseconds, converts them to seconds and writes them with two decimals.
 *
 * Times are integer milliseconds as `Date.now()` gives them; the current time is a parameter.
 * Milliseconds divided by 1000 are held exactly, as a number of thousandths of a second.
 */
module Interface {
  import opened NumberFormat

  /** The run phases the display distinguishes. */
  datatype Phase = Ready | Playing | Ended

  /**
   * The elapsed milliseconds for a phase: the time from the start to now while playing, from
   * the start to the end once ended, and 0 otherwise.
   */
  function ElapsedMillis(phase: Phase, now: int, startTime: int, endTime: int): (ms: int)
    ensures phase == Playing ==> startTime + ms == now
    ensures phase == Ended ==> startTime + ms == endTime
    ensures phase == Ready ==> ms == 0
  {
    match phase
    case Playing => now - startTime
    case Ended => endTime - startTime
    case Ready => 0
  }

  /** `f` shows `ms` milliseconds as seconds: same sign, magnitude rounded to the nearest hundredth (ties up). */
  predicate ShowsMillis(f: Fixed2, ms: int)
  {
    (f.negative <==> ms < 0) && AbsInt(ms) - 5 < 10 * f.hundredths <= AbsInt(ms) + 5
  }

  /**
   * The text the display shows on a frame: it reads back as the elapsed milliseconds in
   * seconds, rounded to hundredths.
   */
  function DisplayText(phase: Phase, now: int, startTime: int, endTime: int): (text: string)
    ensures Parse(text).Some? && ShowsMillis(Parse(text).value, ElapsedMillis(phase, now, startTime, endTime))
  {
    ToFixed2(Thousandths(ElapsedMillis(phase, now, startTime, endTime)))
  }

  /**
   * The frame callback: start from 0, take the running or final time according to the
   * phase, divide by 1000 and format with `toFixed(2)`. The text reads back as the elapsed
   * time in seconds to the nearest hundredth.
   */
  method ElapsedTimeText(phase: Phase, now: int, startTime: int, endTime: int) returns (text: string)
    ensures text == DisplayText(phase, now, startTime, endTime)
    ensures Parse(text).Some? && ShowsMillis(Parse(text).value, ElapsedMillis(phase, now, startTime, endTime))
  {
    var elapsedTime := 0;
    if phase == Playing {
      elapsedTime := now - startTime;
    } else if phase == Ended {
      elapsedTime := endTime - startTime;
    }
    assert elapsedTime == ElapsedMillis(phase, now, startTime, endTime);
    var seconds := Thousandths(elapsedTime);
    text := ToFixed2(seconds);
  }

  /** Before the run starts the display reads "0.00", whatever the clock and timestamps say. */
  lemma ReadyShowsZero(now: int, startTime: int, endTime: int)
    ensures DisplayText(Ready, now, startTime, endTime) == "0.00"
  {
    ZeroRendering();
  }

  /** Once the run has ended the display no longer depends on the clock: it is frozen on every later frame. */
  lemma EndedDisplayFrozen(now1: int, now2: int, startTime: int, endTime: int)
    ensures DisplayText(Ended, now1, startTime, endTime) == DisplayText(Ended, now2, startTime, endTime)
  {
  }

  /** The frozen display is the one a playing frame would have shown at the end time. */
  lemma EndedShowsFinalRunningTime(now: int, startTime: int, endTime: int, anyEndTime: int)
    ensures DisplayText(Ended, now, startTime, endTime) == DisplayText(Playing, endTime, startTime, anyEndTime)
  {
  }

  /** While playing, the displayed time never goes backwards as the clock advances. */
  lemma {:induction false} PlayingDisplayNeverDecreases(now1: int, now2: int, startTime: int, endTime: int)
    requires startTime <= now1 <= now2
    ensures var earlier := Parse(DisplayText(Playing, now1, startTime, endTime));
      var later := Parse(DisplayText(Playing, now2, startTime, endTime));
      earlier.Some? && later.Some? && !earlier.value.negative && !later.value.negative
      && earlier.value.hundredths <= later.value.hundredths
  {
  }
}
