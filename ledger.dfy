/**
 * The scoring ledger of a quiz session: the attempt history, the running
 * correct count, the chronological list of mistakes, and the accuracy
 * percentage shown on the summary screen.
 */
module Ledger {

  /** One answer: the note shown, the letter guessed, whether it matched, and an opaque timestamp. */
  datatype Attempt = Attempt(note: string, guess: string, correct: bool, time: string)

  /** A wrong answer as listed on the summary screen. */
  datatype Mistake = Mistake(note: string, guess: string)

  /** A guess is right when it is exactly the one-character text of the note's first character. */
  predicate Judge(note: string, guess: string): (ok: bool)
    ensures ok <==> |note| > 0 && |guess| == 1 && guess[0] == note[0]
    ensures ok && |note| > 0 ==> guess == note[..1]
  {
    |note| > 0 && guess == [note[0]]
  }

  /** The number of correct attempts in a history. */
  function CorrectCount(history: seq<Attempt>): (n: nat)
    ensures n <= |history|
  {
    if |history| == 0 then 0
    else CorrectCount(history[1..]) + (if history[0].correct then 1 else 0)
  }

  /**
   * The mistakes of a history that is kept newest first, oldest mistake
   * first. Together with the correct attempts they account for every attempt.
   */
  function MistakeLog(history: seq<Attempt>): (log: seq<Mistake>)
    ensures CorrectCount(history) + |log| == |history|
  {
    if |history| == 0 then []
    else
      var a := history[0];
      MistakeLog(history[1..]) + (if a.correct then [] else [Mistake(a.note, a.guess)])
  }

  /** Every attempt was judged by the rule in `Judge`. */
  predicate Judged(history: seq<Attempt>) {
    forall k :: 0 <= k < |history| ==> history[k].correct == Judge(history[k].note, history[k].guess)
  }

  /** The counters and the mistake list agree with the history. */
  predicate Consistent(history: seq<Attempt>, score: int, total: int, mistakes: seq<Mistake>) {
    && Judged(history)
    && score == CorrectCount(history)
    && total == |history|
    && mistakes == MistakeLog(history)
  }

  /** Recording one more attempt, newest first, keeps the ledger consistent. */
  lemma RecordKeepsConsistent(history: seq<Attempt>, score: int, total: int, mistakes: seq<Mistake>,
                              note: string, guess: string, time: string)
    requires Consistent(history, score, total, mistakes)
    ensures var ok := Judge(note, guess);
            Consistent([Attempt(note, guess, ok, time)] + history,
                       if ok then score + 1 else score,
                       total + 1,
                       if ok then mistakes else mistakes + [Mistake(note, guess)])
  {
    var h := [Attempt(note, guess, Judge(note, guess), time)] + history;
    assert h[1..] == history;
  }

  /** With the counters consistent, score and mistakes sum to the number of attempts. */
  lemma ConsistentBalance(history: seq<Attempt>, score: int, total: int, mistakes: seq<Mistake>)
    requires Consistent(history, score, total, mistakes)
    ensures 0 <= score <= total
    ensures score + |mistakes| == total == |history|
  {
  }

  /** Every listed mistake is a guess that does not match its note. */
  lemma {:induction false} MistakesAreWrong(history: seq<Attempt>)
    requires Judged(history)
    ensures forall k :: 0 <= k < |MistakeLog(history)| ==>
              !Judge(MistakeLog(history)[k].note, MistakeLog(history)[k].guess)
  {
    if |history| > 0 {
      assert Judged(history[1..]) by {
        forall k | 0 <= k < |history[1..]|
          ensures history[1..][k].correct == Judge(history[1..][k].note, history[1..][k].guess)
        {
          assert history[1..][k] == history[k + 1];
        }
      }
      MistakesAreWrong(history[1..]);
    }
  }

  /**
   * The summary's accuracy: 0 with no attempts, otherwise `score / total * 100`
   * rounded to the nearest integer, halves rounding up.
   */
  function Accuracy(score: nat, total: nat): (pct: nat)
    ensures total == 0 ==> pct == 0
    ensures total > 0 ==> 2 * total * pct <= 200 * score + total < 2 * total * (pct + 1)
  {
    if total == 0 then 0
    else
      var n, d := 200 * score + total, 2 * total;
      var q := n / d;
      assert d * q <= n < d * (q + 1);
      q
  }

  /** Multiplying by a non-negative factor keeps the order. */
  lemma MulMonotone(t: nat, a: int, b: int)
    requires a <= b
    ensures t * a <= t * b
  {
    assert t * b - t * a == t * (b - a);
  }

  /** With no more correct answers than attempts the percentage lies in [0, 100]. */
  lemma AccuracyBounds(score: nat, total: nat)
    requires score <= total
    ensures Accuracy(score, total) <= 100
    ensures 0 < total && score == total ==> Accuracy(score, total) == 100
    ensures score == 0 ==> Accuracy(score, total) == 0
  {
    var p := Accuracy(score, total);
    if total > 0 {
      var d := 2 * total;
      MulMonotone(200, score, total);
      if p > 100 {
        MulMonotone(d, 101, p);
        assert false;
      }
      if score == total && p < 100 {
        MulMonotone(d, p + 1, 100);
        assert false;
      }
      if score == 0 && p > 0 {
        MulMonotone(d, 1, p);
        assert false;
      }
    }
  }

  /**
   * In exact arithmetic the percentage is within one half of
   * `score / total * 100`, halves rounding up. `Math.round` receives the
   * double-precision product instead, which can fall just below a half: for
   * 23 of 40 that product is 57.49999999999999, so the page shows 57 where
   * this gives 58.
   */
  lemma AccuracyRounds(score: nat, total: nat)
    requires total > 0
    ensures var x := score as real / total as real * 100.0;
            Accuracy(score, total) as real - 0.5 <= x < Accuracy(score, total) as real + 0.5
  {
    var p := Accuracy(score, total);
    var t, s, pr := total as real, score as real, p as real;
    assert (2 * total * p) as real == 2.0 * t * pr;
    assert (2 * total * (p + 1)) as real == 2.0 * t * pr + 2.0 * t;
    assert (200 * score + total) as real == 200.0 * s + t;
    RoundingBracket(s, t, pr);
  }

  /** `2tp <= 200s + t < 2t(p + 1)` places `p` within one half of `s / t * 100`. */
  lemma RoundingBracket(s: real, t: real, pr: real)
    requires t > 0.0
    requires 2.0 * t * pr <= 200.0 * s + t < 2.0 * t * pr + 2.0 * t
    ensures pr - 0.5 <= s / t * 100.0 < pr + 0.5
  {
    var c := 2.0 * t;
    var x := s / t * 100.0;
    assert x * t == 100.0 * s;
    assert c * x == 200.0 * s;
    assert c * (pr - 0.5) == c * pr - t;
    assert c * (pr + 0.5) == c * pr + c - t;
    RealCancel(pr - 0.5, x, c);
    RealCancelStrict(x, pr + 0.5, c);
  }

  /** Dividing both sides of an inequality by a positive factor. */
  lemma RealCancel(a: real, b: real, c: real)
    requires c > 0.0 && c * a <= c * b
    ensures a <= b
  {
  }
  /** Dividing both sides of a strict inequality by a positive factor. */
  lemma RealCancelStrict(a: real, b: real, c: real)
    requires c > 0.0 && c * a < c * b
    ensures a < b
  {
  }
}
