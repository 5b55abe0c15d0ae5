# Tabletop Scoring — a verified model of the scoring state machine

Tabletop Scoring is a single-page score keeper for table games. The user
chooses how many players there are (1 to 12) and types their names. Then,
round after round, the user enters one integer score per player. The page
shows each player's running total, the total of all points on the table,
and highlights every player whose total is the highest. A round can be
undone, a player can be removed, and the whole game can be reset. The
last set of player names is kept in the browser's storage so the next
session can restore it.

This project models the part of `script.js` that is not page wiring:

- the roster `players`: a list of `{name, scores}` records, and the
  handlers that change it. These are `initializePlayers`, `addRound`,
  `undoRound`, `removePlayer`, `resetGame` and the add-round button;
- the restore-names button, which reads the stored names and changes only
  the setup channel;
- the two message channels, one for setup and one for rounds;
- the player-count guard of the set-names button;
- the score coercion `raw === '' ? 0 : parseInt(raw, 10) || 0`, together
  with the JavaScript `String.prototype.trim` and `parseInt` it relies on;
- the numbers `renderTable` shows: per-player totals, the grand total,
  the highlighted players and the round count;
- the filter `getSavedNames` applies to what it reads from storage.

Modules, one file each:

| module | file | what it holds |
|---|---|---|
| `Wrappers` | Wrappers.dfy | `Option`. It stands for JavaScript's `NaN` result of `parseInt`. |
| `Text` | Text.dfy | `trim`. Whitespace is the ECMAScript WhiteSpace and LineTerminator code points. |
| `ScoreInput` | ScoreInput.dfy | `parseInt(s, 10)`, the score coercion and the player-count guard. `DecimalString` writes an integer; it is the inverse that the round-trip lemmas use. |
| `Persistence` | Persistence.dfy | The stored name list as a JSON document, the saved-name filter, and save/load. |
| `Roster` | Roster.dfy | `Player` and the roster transitions as pure functions. Also the invariant that all score lists have one length and all names are non-blank and trimmed. |
| `View` | View.dfy | The `renderTable` projection and its properties. |
| `Game` | Game.dfy | The `Scoreboard` class. Its fields are the roster, the stored document and the two message channels. Each handler is a method on it. |
| `Examples` | Examples.dfy | Short sessions on a `Scoreboard`, checked statically with assertions. |

Two behaviours of the code that the model keeps:

- The 1 to 12 count check lives only in the set-names handler
  (script.js:237-243). `initializePlayers` takes whatever name fields the
  form holds, so names restored by `loadSavedNames` do not pass through the
  check (script.js:130-131). In the model the check is
  `Scoreboard.SetPlayerCount`, and `InitializePlayers` takes a sequence of
  field values of any length.
- `initializePlayers` clears only the setup channel (script.js:120). A
  round message left over from an earlier game stays. The model keeps
  `roundError` unchanged there.

## Model

| member | source | states |
|---|---|---|
| Text.TrimSpec | script.js:105 | `trim` gives the empty string exactly when the input is all whitespace, and its result never starts or ends with whitespace. |
| Text.Trim | script.js:156 | `String.prototype.trim`: never longer than its input. Its meaning is given by TrimSpec (empty exactly for all-whitespace input, no whitespace left at either end), TrimOfPadded (whitespace around trimmed text is removed exactly) and TrimIdempotent. |
| Text.TrimStartSpec | script.js:157 | The leading whitespace `parseInt` skips is a whitespace-only prefix. What remains is the rest of the input and does not start with whitespace. |
| Text.TrimEndSpec | script.js:156 | Trimming the end removes a whitespace-only suffix and keeps the rest as it was. |
| Text.TrimOfTrimmed | script.js:54 | A string with no whitespace at either end is its own trim. |
| Text.TrimOfPadded | script.js:156 | Trimming a trimmed string surrounded by any whitespace gives back that string. |
| Text.TrimIdempotent | script.js:105 | Trimming twice is the same as trimming once. |
| Text.TrimStartOfPadded | script.js:156 | Whitespace followed by text that does not start with whitespace loses exactly that whitespace at the start. |
| Text.TrimEndOfPadded | script.js:156 | Text that does not end with whitespace, followed by whitespace, loses exactly that whitespace at the end. |
| ScoreInput.LeadingDigitsSpec | script.js:157 | The digit run `parseInt` reads is a prefix of the input, and it is the longest one: the next character is not a digit. |
| ScoreInput.ParseInt | script.js:157 | `parseInt(s, 10)` yields NaN exactly when, after its leading whitespace, the text has no integer at its start: no digit, and no sign followed by a digit. Its values are given by ParseIntOfDigits, ParseIntOfNegativeDigits, ParseIntOfPlusDigits and ParseIntOfDecimal. |
| ScoreInput.ParseSigned | script.js:157 | After the whitespace strip: NaN exactly when there is no leading integer, and a negative result only behind a minus sign. |
| ScoreInput.ParseDigits | script.js:157 | The leading digit run: NaN exactly when the text does not start with a digit, and never negative otherwise. |
| ScoreInput.DigitChar | script.js:157 | Writing a digit value gives a digit character that reads back as that value. |
| ScoreInput.DigitsValueOfNatDigits | script.js:157 | Reading the decimal digits of a natural number gives that number. |
| ScoreInput.LeadingDigitsOfDigits | script.js:157 | The digit run read from a digit string followed by a non-digit is exactly that digit string. |
| ScoreInput.ParseIntOfDigits | script.js:157 | `parseInt` of a digit run followed by any non-digit text is the value of the digits. |
| ScoreInput.ParseIntOfNegativeDigits | script.js:157 | `parseInt` of a minus sign, a digit run and any non-digit text is the negated value of the digits. |
| ScoreInput.ParseIntOfPlusDigits | script.js:157 | `parseInt` of a plus sign, a digit run and any non-digit text is the value of the digits. |
| ScoreInput.ParseIntOfDecimal | script.js:157 | Round trip: `parseInt` reads back any integer written in decimal, whatever non-digit text follows it. |
| ScoreInput.CoerceScore | script.js:156-157 | The score recorded for one field: the integer `parseInt` reads from the trimmed text, or 0 when it reads NaN. Blank gives 0 (CoerceScoreOfBlank). No leading integer gives 0 (CoerceScoreWithoutDigits). An optional sign and digits give their signed value whatever follows (CoerceScoreOfLeadingInteger). A written integer gives itself (CoerceScoreOfDecimal). |
| ScoreInput.CoerceScoreOfLeadingInteger | script.js:156-157 | A field whose trimmed text is an optional `-` or `+`, a digit run (leading zeros allowed) and any text not starting with a digit is recorded as the digits' value, negated behind `-`. |
| ScoreInput.CoerceScoreOfDecimal | script.js:155-158 | Round trip: a score field holding a written integer, with any whitespace around it, is recorded as that integer. |
| ScoreInput.CoerceScoreOfBlank | script.js:156-157 | An empty or whitespace-only score field is recorded as 0. |
| ScoreInput.CoerceScoreWithoutDigits | script.js:157 | A field whose trimmed text has no leading integer is recorded as 0, because `NaN || 0` is 0. |
| ScoreInput.CoercionExamplesBlank | script.js:157 | `""` and `"  "` are recorded as 0. |
| ScoreInput.CoercionExampleLetters | script.js:157 | `"abc"` is recorded as 0. |
| ScoreInput.CoercionExamplePositive | script.js:157 | `"5"` is recorded as 5. |
| ScoreInput.CoercionExampleNegative | script.js:157 | `"-3"` is recorded as -3. |
| ScoreInput.CoercionExamplePlus | script.js:157 | `"+5"` is recorded as 5. |
| ScoreInput.CoercionExampleLeadingZeros | script.js:157 | `"007"` is recorded as 7. |
| ScoreInput.CoercionExampleTrailingText | script.js:157 | `"12abc"` is recorded as 12. |
| ScoreInput.CoercionExampleFraction | script.js:157 | `"3.5"` is recorded as 3. |
| ScoreInput.CoercionExampleExponent | script.js:157 | `"1e3"` is recorded as 1. |
| ScoreInput.CoerceScoreOfDigit | script.js:157 | A single written digit is recorded as its value. |
| ScoreInput.CoerceAll | script.js:155-158 | One score per field, in field order, each the coercion of its own field. |
| ScoreInput.CheckPlayerCount | script.js:238-239 | A count is accepted exactly when `parseInt` yields an integer from 1 to 12. An accepted count lies in that range and is the number `parseInt` read. |
| ScoreInput.CheckPlayerCountOfLeadingDigits | script.js:238-239 | A count field holding whitespace, digits (leading zeros allowed) and any text not starting with a digit gives the digits' value, accepted only from 1 to 12. |
| ScoreInput.CheckPlayerCountExampleLeadingZero | script.js:238-239 | `"07"` asks for seven players. |
| ScoreInput.CheckPlayerCountOfDecimal | script.js:238-239 | A written integer is accepted as itself when it is from 1 to 12, and rejected otherwise. |
| Persistence.FilterNames | script.js:54 | The kept names are no more than the stored entries, and none of them trims to empty. |
| Persistence.IsUsableName | script.js:54 | The filter's test: the entry is a string whose trim is non-empty. FilterNamesMembers shows the filter keeps exactly the entries passing it. |
| Persistence.FilterNamesMembers | script.js:54 | A name is kept exactly when it is stored as a string entry whose trim is non-empty. |
| Persistence.FilterNamesAppend | script.js:54 | The filter keeps entries in their stored order: filtering a concatenation concatenates the filtered parts. |
| Persistence.FilterNamesDropsUnusable | script.js:54 | A document with no usable entry yields no names. |
| Persistence.LoadNames | script.js:49-59 | Loaded names are never blank. A missing, unparsable or non-array document yields no names. |
| Persistence.SaveNames | script.js:41-47 | Saving writes an array with one entry per name. |
| Persistence.LoadAfterSave | script.js:41-59 | Round trip: saving non-blank names and loading them back gives the same names in the same order. |
| Roster.Names | script.js:177 | The names of the roster, one per player, in roster order. |
| Roster.RoundCount | script.js:183 | The round count read from the first player: 0 without players, else the first player's list length. Under the alignment invariant it is every player's list length, which AppendRound, DropLastRound and RemoveAtKeepsInvariant move by one, by minus one, and not at all. |
| Roster.AnyEmpty | script.js:107 | `names.some(n => n.length === 0)`: some name is empty. InitializePlayers rejects exactly such name lists. |
| Roster.TrimAll | script.js:104-105 | One trimmed name per field, in field order. |
| Roster.FreshRoster | script.js:112 | A new roster has exactly the given names, no rounds and aligned score lists. It is well named when the names are non-blank and trimmed. |
| Roster.AppendRound | script.js:160 | Adding a round keeps the names, keeps the score lists aligned and adds one round. |
| Roster.DropLast | script.js:188 | `pop`: an empty list stays empty, and otherwise the result followed by the old last element is the old list. |
| Roster.DropLastRound | script.js:188 | Undoing keeps the names and alignment, and on a roster with rounds removes exactly one round. |
| Roster.RemoveAt | script.js:172 | Removal shortens the roster by one. Players before the index stay in place and players after it shift down by one. |
| Roster.RemoveAtKeepsInvariant | script.js:171-172 | Removing a player keeps the score lists aligned and the names well formed. On a non-empty result it keeps the round count. |
| Roster.UndoAfterAdd | script.js:188 | Undoing right after adding a round restores the roster exactly. |
| View.Max | script.js:205 | The maximum total is one of the totals and is at least every total. |
| View.Sum | script.js:203-204 | `reduce((a, b) => a + b, 0)`. SumAppend (the sum of a concatenation is the sum of the sums) and SumOfPointwise state its meaning. |
| View.Leaders | script.js:205-212 | The highlighted indices: never empty, and each one's total is at least every other total. LeadersAreMaxima shows they are exactly the indices of the maximum. |
| View.Totals | script.js:203 | One total per player. |
| View.Project | script.js:194-205 | The displayed round count is the length of the first player's score list, or 0 without players. There is one total per player, and without players the grand total is 0 and nobody is highlighted. |
| View.SumAppend | script.js:203-204 | Summing a concatenation adds the sums of its parts. |
| View.TotalsAreSums | script.js:203-204 | Each player's total is the sum of their scores. The grand total is the sum of the totals, and also the sum of every score on the table. |
| View.LeadersAreMaxima | script.js:205-212 | The highlighted players are exactly those whose total equals the maximum, ties included. The set is non-empty exactly when there are players. |
| View.TotalsAfterAppend | script.js:203 | After a round, each total grows by that player's new score. |
| View.SumOfPointwise | script.js:204 | Summing pointwise sums adds the two sums. |
| View.ProjectAfterAddRound | script.js:203-204 | After a round, each total grows by that player's score, the grand total by the sum of the round, and the round count by one. |
| View.ProjectAfterUndo | script.js:194-205 | Undoing right after adding a round restores the displayed table exactly. |
| Game.Scoreboard.constructor | script.js:20 | A fresh page has no players and no messages, and keeps whatever an earlier session stored. |
| Game.Scoreboard.ResetGame | script.js:88-101 | Reset empties the roster and clears both channels. The stored names stay. |
| Game.Scoreboard.InitializePlayers | script.js:103-121 | A blank name leaves roster and storage alone and reports it. Otherwise the roster is one scoreless player per trimmed name, those names are saved, and the setup channel is cleared. |
| Game.Scoreboard.AddRound | script.js:152-168 | With no players nothing changes. Otherwise each player's coerced score is appended, in position order, and the round channel is cleared. The invariant is kept. |
| Game.Scoreboard.AddRoundButton | script.js:258-264 | With no players the round channel reports that players must be set up first and nothing else changes. Otherwise it is `AddRound`. |
| Game.Scoreboard.UndoRound | script.js:182-191 | With no round logged the roster is unchanged and the round channel reports it. Otherwise exactly the last score of every player is removed. |
| Game.Scoreboard.RemovePlayer | script.js:170-180 | An index outside the roster changes nothing. Removing the last player is a reset with nothing saved. Otherwise exactly that player goes, and the remaining names are saved. |
| Game.Scoreboard.LoadSavedNames | script.js:123-138 | Returns the usable stored names. The setup channel reports when there are none and is cleared otherwise. |
| Game.Scoreboard.SetPlayerCount | script.js:237-247 | Returns the accepted count, and the setup channel reports a count outside 1 to 12. |
| Game.RestoreAfterInitialize | script.js:113 | What a successful setup saves is read back by the restore button as the same names in the same order. |
| Game.RestoreAfterRemove | script.js:177 | After a removal, the restore button reads back the remaining players' names in roster order. |

## Left out

- Page wiring is not modelled: element lookups, HTML building, class
  toggling, focus and selection, event listeners, and the Enter-to-advance
  keyboard helper `attachEnterAdvance`. The handlers' inputs (field
  values, the removed index) become method parameters, and the fields
  `LoadSavedNames` would fill become its result.
- `localStorage` and `console.warn`: storage is a field holding the
  document. A failing `setItem` or `getItem` is not modelled; saving
  always succeeds.
- JSON parsing: only its outcome is modelled (nothing stored, unparsable,
  not an array, or an array of string and non-string entries). The filter
  is modelled on that outcome.
- JavaScript numbers: scores and totals are unbounded integers. Past
  2^53, doubles lose precision, and `parseInt` of a very long digit run
  yields a rounded value or `Infinity`; neither is modelled.
- Strings are sequences of characters, not of UTF-16 code units. Trimming
  and digit tests work per character.
- Presentation strings are not modelled: the "N rounds logged" label, the
  "Total points on the table" line and the empty-table placeholder.
- Game.Scoreboard.AddRound: requires one field per player. The page
  rebuilds one score field per player after every roster change
  (script.js:140-150). The case where the counts differ, which in the
  source would skip players or throw, is therefore not modelled.
- Game.Scoreboard.AddRoundButton: carries the same one-field-per-player
  requirement as `AddRound`, for the same reason (script.js:140-150).
