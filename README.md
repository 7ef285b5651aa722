# Music tutor quiz: a Dafny model

This project models the quiz engine of a small front-end repository. It has two parts:

- **`game.jsx`**, the React "music tutor" component. It has a menu, a timed game and a summary screen. It shows one note at a time from a fixed treble or bass range. It judges each letter the player answers with, keeps a score, a newest-first history and an oldest-first mistake list, and keeps a best score.
- **`gamestest.js`**, a simpler one-minute countdown game held in module globals. It has an `m:ss` time display and summary points.

## Where each part lives

| file | what it holds |
|---|---|
| `optional.dfy` | `Option`, which stands for JavaScript's `null` and for a failed match. |
| `decimal.dfy` | Decimal digit strings. They model `parseInt(s, 10)` on digits and `toString()` on a non-negative integer. The module holds the round trip between the two and the leading-zero rule. |
| `notes.dfy` | The two note ranges and `getRandomNoteForClef`, with the random draw passed in as an index. It also holds the integer part of `noteFrequency`: the `^([A-G])([0-9]+)$` match, the letter table, and the *semitone distance from A4*, which is `letter offset + (octave - 4) * 12`. |
| `ledger.dfy` | Attempts and mistakes, the score and mistake list as they follow from a history, and the summary accuracy `round(score / total * 100)` in exact integer form. |
| `tutor.dfy` | The component as the class `MusicTutor`. Each of its state variables is a field of the class. Each user action, timer callback and effect body is a method. The file also holds the keyboard filter. |
| `countdown.dfy` | `gamestest.js` as the class `CountdownGame`. It holds the interval handles, the tick, the time text and `endGame`'s points. |

## How events are turned into methods

- **Random draws.** Every call to `Math.random` becomes a parameter. A note draw is an index below the length of the range. The accuracy in `gamestest.js` is a percentage below 100.
- **Timestamps.** `Date.now()` and the ISO timestamp are opaque parameters.
- **The best score.** The stored best score is passed to the constructor.
- **Playback.** A call to `playNote` becomes a note appended to `cues`.
- **The next-note delay.** `answer` picks the next note at once but shows it 130 ms later through `setTimeout`. The model keeps those deferred callbacks in the FIFO queue `pending`. The event `DeliverNextNote` fires the oldest one. Nothing ever cancels a callback, so one can set a note again after the summary effect has cleared it. An answer given before the callback fires is judged against the note still shown.
- **The interval.** A React interval becomes `Tick`. `Tick` does something only on the game screen with time left, because no interval exists at any other moment.
- **Effects.** The bodies of the two effects are the events `TimerEffect` (game.jsx:166-176) and `SummaryEffect` (game.jsx:185).

## Behaviour of the code that the model keeps

- **Answering off the game screen.** `answer` checks only that a note is shown, not which screen is up. The screen is checked by the keyboard filter and by the fact that the letter buttons exist only on the game screen.
- **Quit.** Quit only switches to the menu. It cancels no pending callback and leaves the note in place.
- **No configuration error.** A clef other than exactly `"treble"` gets the bass range. There is no error path, and both ranges have ten notes.
- **The keyboard filter.** The test is `k >= "A" && k <= "G"` on strings. It lets every upper-cased key name that starts with A to F through, for example "ENTER", "ESCAPE" and "F5", as well as "G" alone. Such keys are recorded as answers.
- **Points in `gamestest.js`.** That file never raises `score` above 0, so its summary points are always 0.

## Model

| member | source | states |
|---|---|---|
| `Decimal.NatToString` | gamestest.js:32 | The decimal text of a non-negative integer consists of digits and reads back as that integer. It has no leading zero. It is one character below 10 and two characters from 10 to 99. |
| `Decimal.DigitsValue` | game.jsx:30 | `parseInt(s, 10)` on a digit string: one digit reads as its own value, and a string with a non-zero first digit reads as a positive number. `Notes.CanonicalDigits` and `Decimal.LeadingZero` relate it to `NatToString`. |
| `Decimal.LeadingZero` | gamestest.js:32 | A zero padded in front does not change the value of a digit string. |
| `Notes.ClefRange` | game.jsx:39-40 | Exactly `"treble"` selects the treble list and every other clef text selects the bass list. Both lists have 10 notes. |
| `Notes.NoteForClef` | game.jsx:39-42 | The note drawn for a clef lies in that clef's list, and so in the catalogue: the treble list for `"treble"`, the bass list otherwise. |
| `Notes.NoteForClefInjective` | game.jsx:36-42 | Different draws give different notes, so a uniform index gives a uniform note. |
| `Notes.ParsePitch` | game.jsx:27-30 | The match succeeds if and only if the name is a letter from A to G followed by one or more digits and nothing else. The pitch is then that letter and the decimal value of the digits. |
| `Notes.ParsePitchName` | game.jsx:27-30 | Parsing a letter followed by the decimal octave gives back that letter and that octave. |
| `Notes.PitchNameOfParse` | game.jsx:27-30 | Conversely, a name that matches and has no leading zero in its octave is the canonical name of the pitch it parses to. |
| `Notes.LetterOffset` | game.jsx:15-23 | The semitone offsets of the letters from A lie in [-9, 2]. |
| `Notes.PitchOffset` | game.jsx:31 | The distance from A4 is at least -57. It lies in [-9, 2] in octave 4, is at least 3 above it and at most -10 below it. `Notes.OctaveUp` and `Notes.PitchOffsetInjective` are its partners. |
| `Notes.SemitoneOffset` | game.jsx:25-31 | Every name off the pattern falls back to A4, distance 0, and no distance is below -57. `Notes.SemitoneOffsetOfMatch` gives the distance of every name on the pattern. |
| `Notes.SemitoneOffsetOfMatch` | game.jsx:27-31 | Every name on the pattern has distance `letter offset + (octave - 4) * 12`, with the octave read from all its digits. |
| `Notes.SemitoneOffsetOfName` | game.jsx:25-31 | The semitone distance of a well-formed name is the letter's offset plus 12 for each octave above 4. |
| `Notes.OctaveUp` | game.jsx:31 | Raising the octave by one raises the distance by exactly 12. |
| `Notes.PitchOffsetInjective` | game.jsx:15-31 | Two natural notes at the same distance from A4 are the same note. |
| `Notes.OffsetOfShortName` | game.jsx:27-31 | A letter followed by one digit matches, and its distance is the letter's offset plus 12 times (digit - 4). |
| `Notes.ReferenceOffsets` | game.jsx:25-31 | A4 gives 0, C4 gives -9 and C5 gives 3. "H4", "C#4", "A", "a4" and "" fail the match and give the A4 fallback, 0. |
| `Notes.RangeOffsets` | game.jsx:36-37 | Every note of both ranges matches the pattern, and the distances are listed per range. |
| `Notes.CatalogueAscending` | game.jsx:35-37 | Each range runs strictly upward in pitch, so it has no repeats. The whole bass range lies below the whole treble range. |
| `Notes.CatalogueNames` | game.jsx:36-37 | Every catalogue note is the canonical name of its pitch, and its first character is its letter. |
| `Ledger.CorrectCount` | game.jsx:150-151 | There are never more correct attempts than attempts. |
| `Ledger.Judge` | game.jsx:145-146 | An answer is right if and only if it is the single character that begins the shown note. |
| `Ledger.MistakeLog` | game.jsx:148-154 | The correct attempts plus the mistakes account for every attempt in the history. |
| `Ledger.RecordKeepsConsistent` | game.jsx:145-155 | Recording an attempt newest first keeps the ledger consistent with the history. A correct guess adds one to the score and a wrong one appends to the mistakes. |
| `Ledger.ConsistentBalance` | game.jsx:148-154 | In a consistent ledger, `score + mistakes == total == history length`, and `0 <= score <= total`. |
| `Ledger.MistakesAreWrong` | game.jsx:146-154 | Every listed mistake is a guess that does not match its note's letter. |
| `Ledger.Accuracy` | game.jsx:274 | The accuracy is 0 with no attempts. Otherwise it is the integer `p` with `2tp <= 200s + t < 2t(p + 1)`, that is, `100s/t` rounded half up. |
| `Ledger.AccuracyRounds` | game.jsx:274 | The same value over the reals: `p - 1/2 <= s / t * 100 < p + 1/2`. |
| `Ledger.AccuracyBounds` | game.jsx:274 | With `score <= total` the accuracy lies in [0, 100]. It is 100 when every attempt was correct and 0 when none was. |
| `Tutor.KeyFilterPasses` | game.jsx:333-336 | A key passes `k >= "A" && k <= "G"` if and only if it starts with A to F or is exactly "G". |
| `Tutor.KeyFilterExamples` | game.jsx:335 | "A", "G", "ENTER", "ESCAPE" and "F5" pass. "H", "GA", "" and " " do not. |
| `Tutor.StringLess` | game.jsx:335 | JavaScript's string `<`: no text is below itself, the empty text is below every other one, and a smaller first character decides. |
| `Tutor.PassesKeyFilter` | game.jsx:335 | A passing key is non-empty and starts with a letter from A to G, and "A" and "G" pass. `Tutor.KeyFilterPasses` gives the exact set. |
| `Tutor.MusicTutor.constructor` | game.jsx:115-125 | The initial state: menu, "treble", 60 seconds, no note, an empty ledger, 60 seconds left, and the stored best score. |
| `Tutor.MusicTutor.Configure` | game.jsx:199-215 | The menu choices set the clef and the time limit and nothing else. |
| `Tutor.Started` | game.jsx:130-140 | A start shows the game screen with the given first note, an empty ledger and the full time limit. The best score, the clef and the queued callbacks stay. |
| `Tutor.Recorded` | game.jsx:145-156 | A recorded attempt adds one to the total and is prepended to the history. The score and the mistakes together grow by one, and the note is cued. The screen, the note and the queue stay. |
| `Tutor.Answered` | game.jsx:143-162 | With no note shown nothing changes. Otherwise the total grows by one and the next note is queued, while the shown note stays. |
| `Tutor.MusicTutor.StartGame` | game.jsx:130-140 | A start empties the ledger, sets the time to the limit and shows the game screen. The first note comes from the configured clef's range. Nothing else changes. |
| `Tutor.MusicTutor.Answer` | game.jsx:143-162 | With no note shown nothing changes. Otherwise the attempt is prepended to the history and counted. A correct guess adds one to the score and a wrong one appends `{note, guess}` to the mistakes. The note is cued. The next note is queued but not shown. |
| `Tutor.MusicTutor.Record` | game.jsx:145-156 | The ledger half of an answer, with the ledger kept consistent. |
| `Tutor.MusicTutor.DeliverNextNote` | game.jsx:161 | The oldest queued note becomes the shown note, on whatever screen is up. |
| `Tutor.MusicTutor.Tick` | game.jsx:177-179 | On the game screen with time left, a tick takes exactly one second off. At any other moment it changes nothing. |
| `Tutor.MusicTutor.TimerEffect` | game.jsx:165-181 | On the game screen with no time left, the summary is shown and the best score becomes the larger of itself and the score. The best score never decreases. |
| `Tutor.MusicTutor.SummaryEffect` | game.jsx:184-186 | On the summary screen the shown note is cleared. On any other screen nothing changes. |
| `Tutor.MusicTutor.Skip` | game.jsx:265 | A new note from the clef's range is shown. The ledger is untouched. |
| `Tutor.MusicTutor.Quit` | game.jsx:264 | Only the screen changes, to the menu. |
| `Tutor.MusicTutor.BackToMenu` | game.jsx:301 | Only the screen changes, to the menu. |
| `Tutor.MusicTutor.PlayAgain` | game.jsx:300 | The same transition as a start from the menu. |
| `Tutor.MusicTutor.KeyDown` | game.jsx:333-336 | A key that fails the filter, or any key off the game screen, changes nothing. A passing key on the game screen gives exactly the state `Answer` gives for that key text: no change with no note shown, otherwise the recorded attempt and the queued next note. |
| `Tutor.MusicTutor.SummaryAccuracy` | game.jsx:273-274 | The summary accuracy lies in [0, 100]. It is 0 with no attempts and 100 when all attempts were correct. |
| `Countdown.PadTwo` | gamestest.js:32 | `padStart(2, '0')` keeps the text at the end and pads it with zeros to at least two characters. |
| `Countdown.FormatTimeDigits` | gamestest.js:30-32 | The `m:ss` text of `Countdown.FormatTime`: the whole minutes in shortest decimal form, a colon, and exactly two digits whose value is the seconds left over. |
| `Countdown.ParseFormatTime` | gamestest.js:30-32 | Every `m:ss` text reads back as the number of seconds it was written from. |
| `Countdown.FirstTickText` | gamestest.js:29-32 | 59 seconds is written "0:59", the text after the first tick. |
| `Countdown.LastTickText` | gamestest.js:29-33 | 0 seconds is written "0:00", the text of the ending tick. |
| `Countdown.StartTextFormat` | gamestest.js:21 | The start text "01:00" is not the tick format's "1:00", but both read back as 60 seconds. |
| `Countdown.Points` | gamestest.js:42-43 | With a percentage in [0, 99], the points lie in [0, 99 * score]. They are 0 when the score or the percentage is 0. |
| `Countdown.CountdownGame.constructor` | gamestest.js:1-4 | The globals as loaded: no timer, 60 seconds, score 0 and accuracy 0. |
| `Countdown.CountdownGame.AtMostOneCountdown` | gamestest.js:26-28 | At most one interval is running, and it is the one in `timer`. |
| `Countdown.CountdownGame.StartGame` | gamestest.js:15-24 | A start sets score 0, time 60 and accuracy 0, writes "01:00" and leaves exactly one fresh interval running. |
| `Countdown.CountdownGame.StartTimer` | gamestest.js:26-28 | The previous interval is cleared before a fresh one is created, so only the new one runs. |
| `Countdown.CountdownGame.Tick` | gamestest.js:28-37 | A tick takes exactly one second off and writes its `m:ss` text. The game ends exactly when no time is left, which is on the 60th tick after a start. The interval is then cleared, so no further tick can occur. |
| `Countdown.CountdownGame.EndGame` | gamestest.js:40-47 | The points are `Countdown.Points` of the score and the drawn percentage. |

## Left out

- The WebAudio synthesiser (`useSynth`, `playNote`) and the floating-point frequency `440 * 2^(n/12)` are left out. They are browser calls and floating-point work. The model only records which note is cued and stops at the integer distance `n`.
- Staff geometry (`noteYPositionOnStaff`, `StaffSVG`) is left out. It is floating-point layout only.
- All rendering is left out: the JSX screens, the Tailwind classes, and the history list's display of the first eight attempts.
- The notes-per-minute figure on the summary is left out. It divides by a floating-point ratio and gates nothing.
- The `localStorage` read and write are left out. The stored best score enters as a constructor argument, and the write that follows a new best score is not modelled.
- `KeyboardListener`'s registration is left out, and so is `toUpperCase`. `KeyDown` receives the key name already upper-cased.
- React effect scheduling is left out. When the effects run is the caller's choice of event order. The restart of the interval whenever the score or the best score changes, which drops the part of a second that had already passed, is not modelled.
- `Tutor.StringLess` compares Unicode scalar values, while JavaScript compares UTF-16 code units. The two orders agree on every comparison with "A" and "G".
- `Notes.ParsePitch` reads any number of octave digits exactly. `parseInt` loses precision beyond 2^53.
- `Ledger.Accuracy` rounds the exact rational `score / total * 100`. The double-precision product that `Math.round` receives is not modelled, and the two can differ: for 23 correct of 40 that product is 57.49999999999999, so the page shows 57 where the model gives 58. 29 of 200, 57 of 200 and 113 of 200 differ the same way.
- `Tutor.MusicTutor.Answer`: the code also returns early for an empty-string note, which is falsy. The model's shown note is `None` or a catalogue note, so that case cannot arise.
- `Tutor.MusicTutor.DeliverNextNote` requires a queued note, because a callback exists only after an answer scheduled it.
- `Countdown.CountdownGame.StartTimer` requires time left. Its only caller, `startGame`, sets 60 seconds first.
- `Countdown.FormatTime` is given only non-negative times. The invariant keeps `timeLeft` at 0 or above, so a negative time is never shown.
- The DOM writes in `gamestest.js` are not modelled: `showScreen`, `showMainMenu`, and the score, accuracy and summary texts. The time text is returned by `StartGame` and `Tick`, and the points are returned by `Tick`.
- `music.js` and `test.js` are not part of this model. They are DOM event glue: a lightbox, an audio toggle, form stubs and sidebar toggles.
