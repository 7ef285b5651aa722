/**
 * The music tutor quiz: a component that moves between a menu, a timed game
 * and a summary, shows one note at a time, records every answer, and keeps a
 * best score. Each user action, timer callback and effect run is one method.
 */
module Tutor {
  import opened Optional
  import opened Notes
  import opened Ledger

  datatype Screen = Menu | Game | Summary

  /** Every state variable of the component, for stating whole transitions at once. */
  datatype TutorState = TutorState(
    screen: Screen,
    clef: string,
    timeLimit: int,
    currentNote: Option<string>,
    score: int,
    total: int,
    mistakes: seq<Mistake>,
    secondsLeft: int,
    startedAt: Option<int>,
    history: seq<Attempt>,
    highScore: int,
    pending: seq<string>,
    cues: seq<string>)

  /**
   * The state after a session starts with the note `first` at time `now`: a
   * fresh ledger, the full time limit and the game screen. Queued next-note
   * callbacks of an earlier session are kept.
   */
  function Started(s: TutorState, first: string, now: int): (t: TutorState)
    ensures t.screen == Game && t.currentNote == Some(first) && t.startedAt == Some(now)
    ensures t.score == t.total == |t.mistakes| == |t.history| == 0 && t.secondsLeft == s.timeLimit
    ensures t.pending == s.pending && t.highScore == s.highScore && t.clef == s.clef
  {
    s.(screen := Game, currentNote := Some(first), score := 0, total := 0, mistakes := [],
       history := [], secondsLeft := s.timeLimit, startedAt := Some(now))
  }

  /**
   * The state after the attempt `guess` at `note` is recorded: it is judged,
   * prepended to the history and counted, a correct one adds to the score, a
   * wrong one is appended to the mistakes, and the note is cued.
   */
  function Recorded(s: TutorState, note: string, guess: string, time: string): (t: TutorState)
    ensures t.total == s.total + 1 && t.history == [Attempt(note, guess, Judge(note, guess), time)] + s.history
    ensures t.score + |t.mistakes| == s.score + |s.mistakes| + 1
    ensures t.cues == s.cues + [note]
    ensures t.screen == s.screen && t.currentNote == s.currentNote && t.pending == s.pending && t.highScore == s.highScore
  {
    var ok := Judge(note, guess);
    s.(total := s.total + 1,
       history := [Attempt(note, guess, ok, time)] + s.history,
       score := if ok then s.score + 1 else s.score,
       mistakes := if ok then s.mistakes else s.mistakes + [Mistake(note, guess)],
       cues := s.cues + [note])
  }

  /**
   * The state after `guess` answers the shown note, with `next` as the note
   * chosen to follow: with no note shown nothing changes; otherwise the attempt
   * is recorded and `next` is queued, while the shown note stays the same.
   */
  function Answered(s: TutorState, guess: string, next: string, time: string): (t: TutorState)
    ensures s.currentNote.None? ==> t == s
    ensures s.currentNote.Some? ==> t.total == s.total + 1 && t.pending == s.pending + [next]
    ensures t.currentNote == s.currentNote && t.screen == s.screen && t.highScore == s.highScore
  {
    match s.currentNote
    case None => s
    case Some(note) => Recorded(s, note, guess, time).(pending := s.pending + [next])
  }

  // ---------------------------------------------------------------------------
  // The keyboard filter

  /** JavaScript's `a < b` on strings: character order, and a proper prefix before its extensions. */
  predicate StringLess(a: string, b: string): (lt: bool)
    decreases |a|
    ensures a == b ==> !lt
    ensures |a| == 0 ==> (lt <==> |b| > 0)
    ensures |a| > 0 && |b| > 0 && a[0] < b[0] ==> lt
  {
    if |b| == 0 then false
    else if |a| == 0 then true
    else if a[0] != b[0] then a[0] < b[0]
    else StringLess(a[1..], b[1..])
  }

  /** The test `k >= "A" && k <= "G"` applied to an upper-cased key name. */
  predicate PassesKeyFilter(k: string): (pass: bool)
    ensures pass ==> |k| > 0 && 'A' <= k[0] <= 'G'
    ensures k == "A" || k == "G" ==> pass
  {
    !StringLess(k, "A") && !StringLess("G", k)
  }

  /**
   * Exactly the keys starting with A to F, and "G" alone, pass: this lets
   * multi-character key names such as "ENTER" or "ESCAPE" through as answers.
   */
  lemma KeyFilterPasses(k: string)
    ensures PassesKeyFilter(k) <==> |k| > 0 && ('A' <= k[0] < 'G' || k == "G")
  {
    if |k| > 0 {
      if k[0] == 'A' {
        assert !StringLess(k[1..], "A"[1..]);
      } else if k[0] == 'G' {
        assert StringLess("G", k) == StringLess("G"[1..], k[1..]);
        assert "G"[1..] == [];
        assert k == "G" <==> |k[1..]| == 0;
      }
    }
  }

  lemma KeyFilterExamples()
    ensures PassesKeyFilter("A") && PassesKeyFilter("G")
    ensures PassesKeyFilter("ENTER") && PassesKeyFilter("ESCAPE") && PassesKeyFilter("F5")
    ensures !PassesKeyFilter("H") && !PassesKeyFilter("GA") && !PassesKeyFilter("") && !PassesKeyFilter(" ")
  {
    KeyFilterPasses("A");
    KeyFilterPasses("G");
    KeyFilterPasses("ENTER");
    KeyFilterPasses("ESCAPE");
    KeyFilterPasses("F5");
    KeyFilterPasses("H");
    KeyFilterPasses("GA");
    KeyFilterPasses("");
    KeyFilterPasses(" ");
  }

  // ---------------------------------------------------------------------------
  // The component

  class MusicTutor {
    var screen: Screen
    var clef: string
    var timeLimit: int
    var currentNote: Option<string>
    var score: int
    var total: int
    /** Wrong answers, oldest first. */
    var mistakes: seq<Mistake>
    var secondsLeft: int
    var startedAt: Option<int>
    /** All answers of the session, newest first. */
    var history: seq<Attempt>
    var highScore: int
    /** Next notes chosen by answers whose delayed callback has not fired yet, oldest first. */
    var pending: seq<string>
    /** The notes handed to the synthesiser, in order. */
    var cues: seq<string>

    ghost predicate Valid()
      reads this
    {
      && Consistent(history, score, total, mistakes)
      && (currentNote.Some? ==> InCatalogue(currentNote.value))
      && (forall k :: 0 <= k < |pending| ==> InCatalogue(pending[k]))
    }

    function State(): (s: TutorState)
      reads this
    {
      TutorState(screen, clef, timeLimit, currentNote, score, total, mistakes, secondsLeft,
                 startedAt, history, highScore, pending, cues)
    }

    /** The initial state; `storedHighScore` is the best score read from the browser's storage (0 when absent). */
    constructor (storedHighScore: int)
      ensures Valid()
      ensures State() == TutorState(Menu, "treble", 60, None, 0, 0, [], 60, None, [], storedHighScore, [], [])
    {
      screen, clef, timeLimit, currentNote := Menu, "treble", 60, None;
      score, total, mistakes, secondsLeft := 0, 0, [], 60;
      startedAt, history, highScore := None, [], storedHighScore;
      pending, cues := [], [];
    }

    /** The menu's clef and duration choices (and its Reset button, which picks "treble" and 60). */
    method Configure(newClef: string, newTimeLimit: int)
      requires Valid()
      modifies this
      ensures Valid()
      ensures State() == old(State()).(clef := newClef, timeLimit := newTimeLimit)
    {
      clef, timeLimit := newClef, newTimeLimit;
    }

    /**
     * Starts a session: a fresh ledger, the full time limit, and a first note
     * of the configured clef, chosen by the draw `index`. Callbacks still
     * pending from an earlier session are not cancelled.
     */
    method StartGame(index: nat, now: int)
      requires Valid() && index < |ClefRange(clef)|
      modifies this
      ensures Valid()
      ensures State() == Started(old(State()), NoteForClef(old(clef), index), now)
      ensures currentNote.Some? && currentNote.value in ClefRange(clef)
      ensures score == total == |mistakes| == |history| == 0
    {
      var first := NoteForClef(clef, index);
      currentNote := Some(first);
      score, total, mistakes, history := 0, 0, [], [];
      secondsLeft := timeLimit;
      startedAt := Some(now);
      screen := Game;
    }

    /**
     * Answers the note on display with `guess`. With no note on display
     * nothing happens. Otherwise the attempt is recorded newest first, a
     * correct one adds to the score and a wrong one is appended to the
     * mistakes, the note is cued for playback, and the next note (from the
     * draw `nextIndex`) is scheduled but not yet shown: until its callback
     * fires, further answers are judged against the same note.
     */
    method Answer(guess: string, nextIndex: nat, time: string)
      requires Valid() && nextIndex < |ClefRange(clef)|
      modifies this
      ensures Valid()
      ensures State() == Answered(old(State()), guess, NoteForClef(old(clef), nextIndex), time)
      ensures currentNote == old(currentNote)
      ensures 0 <= score && score + |mistakes| == total == |history|
    {
      if currentNote.None? {
        ConsistentBalance(history, score, total, mistakes);
        return;
      }
      var note := currentNote.value;
      Record(note, guess, time);
      var next := NoteForClef(clef, nextIndex);
      pending := pending + [next];
    }

    /** The ledger half of an answer: the attempt is judged, counted, logged, and its note cued. */
    method Record(note: string, guess: string, time: string)
      requires Valid()
      modifies this
      ensures Valid()
      ensures State() == Recorded(old(State()), note, guess, time)
      ensures 0 <= score && score + |mistakes| == total == |history|
    {
      var after := Recorded(State(), note, guess, time);
      RecordKeepsConsistent(history, score, total, mistakes, note, guess, time);
      ConsistentBalance(after.history, after.score, after.total, after.mistakes);
      total, history, score, mistakes, cues := after.total, after.history, after.score, after.mistakes, after.cues;
    }

    /**
     * The delayed callback of the oldest unanswered schedule fires and shows
     * its note. It is never cancelled, so it may fire on the menu or summary
     * screen as well.
     */
    method DeliverNextNote()
      requires Valid() && pending != []
      modifies this
      ensures Valid()
      ensures State() == old(State()).(currentNote := Some(old(pending)[0]), pending := old(pending)[1..])
    {
      currentNote := Some(pending[0]);
      pending := pending[1..];
    }

    /**
     * One second of the countdown. The interval exists only while the game
     * screen is shown with time left; at any other moment there is no tick.
     */
    method Tick()
      requires Valid()
      modifies this
      ensures Valid()
      ensures old(screen) == Game && old(secondsLeft) > 0 ==>
                State() == old(State()).(secondsLeft := old(secondsLeft) - 1)
      ensures !(old(screen) == Game && old(secondsLeft) > 0) ==> State() == old(State())
    {
      if screen == Game && secondsLeft > 0 {
        secondsLeft := secondsLeft - 1;
      }
    }

    /**
     * The timer effect: on the game screen with no time left the session ends,
     * the summary is shown, and the best score is raised to the session's
     * score if that is higher. On any other state it does nothing.
     */
    method TimerEffect()
      requires Valid()
      modifies this
      ensures Valid()
      ensures old(screen) == Game && old(secondsLeft) <= 0 ==>
                State() == old(State()).(screen := Summary,
                                         highScore := if old(score) > old(highScore) then old(score) else old(highScore))
      ensures !(old(screen) == Game && old(secondsLeft) <= 0) ==> State() == old(State())
      ensures highScore >= old(highScore)
      ensures old(screen) == Game && old(secondsLeft) <= 0 ==> highScore >= score
    {
      if screen != Game {
        return;
      }
      if secondsLeft <= 0 {
        screen := Summary;
        if score > highScore {
          highScore := score;
        }
      }
    }

    /** The summary effect: on entering the summary screen the note on display is cleared. */
    method SummaryEffect()
      requires Valid()
      modifies this
      ensures Valid()
      ensures old(screen) == Summary ==> State() == old(State()).(currentNote := None)
      ensures old(screen) != Summary ==> State() == old(State())
    {
      if screen == Summary {
        currentNote := None;
      }
    }

    /** Skip: shows a new note from the draw `index` without touching the ledger. */
    method Skip(index: nat)
      requires Valid() && index < |ClefRange(clef)|
      modifies this
      ensures Valid()
      ensures State() == old(State()).(currentNote := Some(NoteForClef(clef, index)))
    {
      currentNote := Some(NoteForClef(clef, index));
    }

    /** Quit: back to the menu; the ledger, the note and any pending callbacks stay as they are. */
    method Quit()
      requires Valid()
      modifies this
      ensures Valid()
      ensures State() == old(State()).(screen := Menu)
    {
      screen := Menu;
    }

    /** Back to menu, from the summary screen. */
    method BackToMenu()
      requires Valid()
      modifies this
      ensures Valid()
      ensures State() == old(State()).(screen := Menu)
    {
      screen := Menu;
    }

    /** Play again, from the summary screen: a new session exactly as from the menu. */
    method PlayAgain(index: nat, now: int)
      requires Valid() && index < |ClefRange(clef)|
      modifies this
      ensures Valid()
      ensures State() == Started(old(State()), NoteForClef(old(clef), index), now)
    {
      StartGame(index, now);
    }

    /**
     * A key press, given as its upper-cased key name: it is taken as an answer
     * when it passes the filter and the game screen is shown.
     */
    method KeyDown(key: string, nextIndex: nat, time: string)
      requires Valid() && nextIndex < |ClefRange(clef)|
      modifies this
      ensures Valid()
      ensures !(PassesKeyFilter(key) && old(screen) == Game) ==> State() == old(State())
      ensures PassesKeyFilter(key) && old(screen) == Game ==>
                State() == Answered(old(State()), key, NoteForClef(old(clef), nextIndex), time)
    {
      if PassesKeyFilter(key) && screen == Game {
        Answer(key, nextIndex, time);
      }
    }

    /** The accuracy on the summary screen, a percentage between 0 and 100. */
    function SummaryAccuracy(): (pct: nat)
      reads this
      requires Valid()
      ensures pct <= 100
      ensures total == 0 ==> pct == 0
      ensures total > 0 && score == total ==> pct == 100
    {
      ConsistentBalance(history, score, total, mistakes);
      AccuracyBounds(score, total);
      Accuracy(score, total)
    }
  }
}
