/**
 * The stand-alone countdown game: a one-minute timer driven by a single
 * interval, an `m:ss` time display, and the summary points.
 */
module Countdown {
  import opened Optional
  import opened Decimal

  /** The time text written when a game starts, before the first tick. */
  const StartText: string := "01:00"

  /** `s.padStart(2, '0')`: zeros in front up to two characters. */
  function PadTwo(s: string): (r: string)
    ensures |r| == if |s| >= 2 then |s| else 2
    ensures r[|r| - |s|..] == s
    ensures forall i :: 0 <= i < |r| - |s| ==> r[i] == '0'
  {
    if |s| >= 2 then s else if |s| == 1 then "0" + s else "00"
  }

  /** The text shown after a tick: whole minutes, a colon, and the remaining seconds as two digits. */
  function FormatTime(t: nat): (text: string) {
    var mins := NatToString(t / 60);
    var secs := PadTwo(NatToString(t % 60));
    assert |secs| == 2;
    mins + ":" + secs
  }

  /** Reads a time text back: minute digits, a colon, and two second digits below 60. */
  function ParseClock(text: string): (r: Option<nat>) {
    if |text| >= 4 && text[|text| - 3] == ':'
       && AllDigits(text[..|text| - 3]) && AllDigits(text[|text| - 2..])
       && DigitsValue(text[|text| - 2..]) < 60
    then Some(DigitsValue(text[..|text| - 3]) * 60 + DigitsValue(text[|text| - 2..]))
    else None
  }

  /**
   * The layout of a time text: the whole minutes in shortest decimal form, a
   * colon, and exactly two digits whose value is the remaining seconds.
   */
  lemma FormatTimeDigits(t: nat)
    ensures var text := FormatTime(t);
            && |text| >= 4 && text[|text| - 3] == ':'
            && text[..|text| - 3] == NatToString(t / 60)
            && AllDigits(text[|text| - 2..]) && DigitsValue(text[|text| - 2..]) == t % 60
  {
    var mins := NatToString(t / 60);
    var s := NatToString(t % 60);
    var secs := PadTwo(s);
    var text := FormatTime(t);
    assert text == mins + ":" + secs;
    assert text[..|text| - 3] == mins;
    assert text[|text| - 2..] == secs;
    if |s| == 1 {
      assert secs == ['0'] + s;
      LeadingZero(s);
    }
    assert DigitsValue(secs) == t % 60;
  }

  /** Every time text reads back as the number of seconds it was made from. */
  lemma ParseFormatTime(t: nat)
    ensures ParseClock(FormatTime(t)) == Some(t)
  {
    FormatTimeDigits(t);
  }

  /** The first tick after a start shows "0:59". */
  lemma FirstTickText()
    ensures FormatTime(59) == "0:59"
  {
    assert NatToString(0) == "0";
    assert NatToString(5) == "5" && NatToString(9) == "9";
    assert NatToString(59) == NatToString(5) + "9";
  }

  /** The last tick shows "0:00". */
  lemma LastTickText()
    ensures FormatTime(0) == "0:00"
  {
    assert NatToString(0) == "0";
  }

  /**
   * A full minute in the tick format is "1:00": the start text "01:00" stands
   * for the same time in a different, zero-padded form.
   */
  lemma StartTextFormat()
    ensures FormatTime(60) == "1:00" && FormatTime(60) != StartText
    ensures ParseClock(StartText) == Some(60)
  {
    assert NatToString(1) == "1" && NatToString(0) == "0";
    var t := StartText;
    assert t[..|t| - 3] == "01" && t[|t| - 2..] == "00";
    assert "01"[..1] == "0" && "00"[..1] == "0";
    assert DigitsValue("01") == 1 && DigitsValue("00") == 0;
  }

  /** The summary points: the score times the accuracy percentage. */
  function Points(score: int, accuracyPercent: nat): (points: int)
    requires accuracyPercent < 100
    ensures score >= 0 ==> 0 <= points <= 99 * score
    ensures score == 0 || accuracyPercent == 0 ==> points == 0
  {
    score * accuracyPercent
  }

  class CountdownGame {
    /** The handle of the last interval created, if any. */
    var timer: Option<nat>
    /** The handles of the intervals that are still running. */
    var active: set<nat>
    /** The handle the next interval will get. */
    var nextHandle: nat
    var timeLeft: int
    var score: int
    var accuracy: int
    /** Ticks delivered since the last start. */
    ghost var ticks: nat

    /**
     * At most the last interval is running, and a running interval always has
     * time left. Nothing in the game raises the score above 0.
     */
    ghost predicate Valid()
      reads this
    {
      && (forall h :: h in active ==> timer == Some(h))
      && (timer.Some? ==> timer.value < nextHandle)
      && timeLeft == 60 - ticks && timeLeft >= 0
      && (active != {} ==> timeLeft >= 1)
      && score == 0
    }

    /** The module's globals as first loaded. */
    constructor ()
      ensures Valid()
      ensures timer == None && active == {} && timeLeft == 60 && score == 0 && accuracy == 0
    {
      timer, active, nextHandle := None, {}, 1;
      timeLeft, score, accuracy := 60, 0, 0;
      ticks := 0;
    }

    /** At most one countdown is ever running. */
    lemma AtMostOneCountdown()
      requires Valid()
      ensures |active| <= 1
      ensures active != {} ==> active == {timer.value}
    {
      if active != {} {
        var h :| h in active;
        assert active == {h};
      }
    }

    /** Resets the score, the time and the accuracy, shows "01:00", and starts the countdown. */
    method StartGame() returns (timeText: string)
      requires Valid()
      modifies this
      ensures Valid()
      ensures score == 0 && timeLeft == 60 && accuracy == 0 && ticks == 0
      ensures timeText == StartText
      ensures timer == Some(old(nextHandle)) && active == {old(nextHandle)}
    {
      score, timeLeft, accuracy := 0, 60, 0;
      ticks := 0;
      timeText := StartText;
      StartTimer();
    }

    /** Clears the previous interval and creates a fresh one, so only the new one runs. */
    method StartTimer()
      requires Valid() && timeLeft >= 1
      modifies this
      ensures Valid()
      ensures timer == Some(old(nextHandle)) && active == {old(nextHandle)} && old(nextHandle) !in old(active)
      ensures nextHandle == old(nextHandle) + 1
      ensures timeLeft == old(timeLeft) && score == old(score) && accuracy == old(accuracy) && ticks == old(ticks)
    {
      if timer.Some? {
        active := active - {timer.value};
      }
      assert active == {};
      timer := Some(nextHandle);
      active := active + {nextHandle};
      nextHandle := nextHandle + 1;
    }

    /**
     * One firing of the running interval: a second less, the new time text,
     * and when no time is left the interval is cleared and the game ends with
     * the points for the drawn `accuracyPercent`. This happens on the 60th tick
     * after a start, and then no interval is left to tick again.
     */
    method Tick(accuracyPercent: nat) returns (timeText: string, endPoints: Option<int>)
      requires Valid() && timer.Some? && timer.value in active && accuracyPercent < 100
      modifies this
      ensures Valid()
      ensures timeLeft == old(timeLeft) - 1 && ticks == old(ticks) + 1
      ensures timeText == FormatTime(timeLeft)
      ensures endPoints.Some? <==> timeLeft == 0
      ensures endPoints.Some? <==> ticks == 60
      ensures endPoints.Some? ==> active == {} && endPoints.value == Points(score, accuracyPercent) == 0
      ensures endPoints.None? ==> active == old(active)
      ensures timer == old(timer) && nextHandle == old(nextHandle)
      ensures score == old(score) && accuracy == old(accuracy)
    {
      timeLeft := timeLeft - 1;
      ticks := ticks + 1;
      timeText := FormatTime(timeLeft);
      if timeLeft <= 0 {
        active := active - {timer.value};
        var points := EndGame(accuracyPercent);
        endPoints := Some(points);
      } else {
        endPoints := None;
      }
    }

    /** The summary: the points are the score times the randomly drawn percentage. */
    method EndGame(accuracyPercent: nat) returns (points: int)
      requires accuracyPercent < 100
      ensures points == Points(score, accuracyPercent)
    {
      points := Points(score, accuracyPercent);
    }
  }
}
