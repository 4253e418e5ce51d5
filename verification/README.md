# rockyoke jukebox — a Dafny model

rockyoke is a karaoke jukebox that runs in the browser. This project models the logic
behind its screens as immutable state and pure transition functions, and proves what each
screen promises.

The model covers:

- **the live lineup page** (`Lineup`): a two-digit keypad that picks one of twenty catalogue
  songs, a searchable flipbook of song cards, a list of one to four performer names, and the
  night's lineup, where "coin in" prepends a booking and starts a playback that locks the
  keypad, the performer names and the coin slot until it ends (`LineupPage` puts these
  together with the effects that copy the shown card's number into the keypad);
- **the letter+number selector** (`ButtonPanel`): buttons A–K and 0–6, CLR and OK, a
  three-character LED, a validator for the 66 codes A01–K06, and one cancellable timeout.
  The keyboard shortcuts are included. The code as written and a corrected version are
  modelled side by side;
- **the 66-song split-flap browser** (`RolodexPanel`): pages of six songs, three on top and
  three below, with page navigation, song clicks, and strips padded to three cells;
- **the standalone card-flipper page** (`RolodexPage`): ten cards, a four-card visible
  window, a z-ordered stack, and up/down moves that remember their direction;
- **the sign-up queue** (`TicketQueue`): append, remove by id, clear, and ticket numbers
  like `K-417`;
- **the sign-up wizard** (`Wizard`): the state hook (pick a song, start, submit a name,
  complete, reset), the name form's guard, the per-stage panel, and the auto-reset timeout;
- **the record player** (`Wurlitzer`): the play sequence idle → sliding → rising →
  lifting → playing, the fifteen-record counter, the "played" notification, and the controls.
  The jukebox component and the standalone page share this machine.

Timers are events. Their durations (300/500/800/1400/2000/3000 ms) only fix the order in which
they fire, and cancelling a timer makes its event a no-op. Randomness, identifiers and the clock
are parameters: `Math.random()` draws become indices with a range precondition, and UUIDs and
`Date.now()` are arguments.

Module `Text` holds the JavaScript string built-ins the code relies on: `trim` with
JavaScript's white-space set, ASCII `toUpperCase`/`toLowerCase`, `includes`, `String(n)`,
`padStart`/`padEnd`, `join`, `parseInt(s, 10)` (NaN or a number), and `<`/`<=` on strings.
Module `Seqs` has the order-preserving `filter` and `slice` with JavaScript's clamping, and
module `Types` has `Song`, `QueueEntry` and `WizardState` from `src/types/jukebox.ts`.

## Model

| member | source | states |
|---|---|---|
| Lineup.CatalogueNumbering | src/App.tsx:32-53 | the catalogue has 20 songs numbered 11 to 30 in order |
| Lineup.Clamp | src/App.tsx:64-66 | the result is `n` inside `[lo, hi]` and the nearer bound outside it; when the range is empty, `Math.max` makes it `lo` |
| Lineup.FormatNo | src/App.tsx:68-70 | a digit string whose value is `n`, two characters for `n < 100`, plain `String(n)` from 10 up; `formatNo` in src/pages/Rolodex.tsx is the same function |
| Lineup.Clean | src/App.tsx:73 | exactly the non-empty trimmed names, each as often as it occurs, in their original order |
| Lineup.JoinNamesIsListing | src/App.tsx:72-78 | `joinNames` equals an independent reading of the cleaned names: a dash for none, the name for one, "A & B", "A, B & C" |
| Lineup.JoinThenAmpersand | src/App.tsx:77 | for three or more names, join-all-but-last-with-comma-then-ampersand equals the front-to-back listing |
| Lineup.SetNameAt | src/App.tsx:753-755 | only slot `i` changes; the length and every other slot stay |
| Lineup.AddPerformer | src/App.tsx:757-759 | at four names nothing changes; otherwise one empty slot is appended and the list stays within 1..4 |
| Lineup.RemovePerformer | src/App.tsx:761-763 | at one name nothing changes; otherwise the last is dropped and the list stays within 1..4 |
| Lineup.RemoveUndoesAdd | src/App.tsx:757-763 | below four names, remove undoes add |
| Lineup.PerformerCountInRange | src/App.tsx:753-763 | from a list of 1..4 names (the page starts with one), any sequence of edits keeps 1..4 |
| Lineup.SelectedNo | src/App.tsx:250 | a number exactly for a non-empty digit buffer |
| Lineup.Lookup | src/App.tsx:222 | the map by number finds a song exactly when one has that number |
| Lineup.SelectedSong | src/App.tsx:250-251 | a song exactly when the buffer is a non-empty digit string worth 11..30, and then the song with that number |
| Lineup.CardNumberSelectsCard | src/App.tsx:250-257 | `String(no)` of any card selects that card (round trip between number and buffer) |
| Lineup.SelectionOutOfRange | src/App.tsx:250-251 | "05" and "" select nothing |
| Lineup.SelectionTwelve | src/App.tsx:225-251 | "12", the buffer of the first render, selects "Mr. Brightside" (the mount effect replaces it before the page is seen, see `LineupPage.Start`) |
| Lineup.PressKey | src/App.tsx:287-306 | "C" empties, "←" drops the last digit, "#" shows a catalogue number that selects the drawn song, a digit is appended only while fewer than two are shown, and any other key changes nothing |
| Lineup.BufferStaysShort | src/App.tsx:287-306 | any key sequence keeps the buffer at most two digits |
| Lineup.FilteredSongs | src/App.tsx:234-238 | a blank query returns the whole catalogue; otherwise every song kept contains the query, ignoring case |
| Lineup.FilteredSongsSelection | src/App.tsx:234-238 | exactly the matching songs are kept, each as often as it occurs, in catalogue order |
| Lineup.QueryIgnoresUpperCase | src/App.tsx:235 | upper-casing the query first gives the same trimmed lower-case query |
| Lineup.QueryIgnoresLowerCase | src/App.tsx:235 | lower-casing the query first gives the same trimmed lower-case query |
| Lineup.SearchIgnoresCase | src/App.tsx:234-238 | the filtered list does not depend on the case of the query |
| Lineup.FlipTarget | src/App.tsx:583-589 | `go` moves to the clamped position, and makes no call exactly when that equals the current one |
| Lineup.Reclamp | src/App.tsx:240-243 | after the list changes length, the position lies in `[0, max(0, len-1)]` and is kept when already inside |
| Lineup.FlipIndexInRange | src/App.tsx:240-243 | any sequence of moves and list changes keeps the position inside the list |
| Lineup.ShowCard | src/App.tsx:253-258 | the card effect (on mount, on a new position, on a new filtered list) puts the shown card's number in the buffer, which then selects that card; with no card at the position the buffer is kept |
| Lineup.FirstFour | src/App.tsx:318 | the first `min(4, n)` names, in order |
| Lineup.CoinInAndLock | src/App.tsx:309-323 | without a name or a song nothing changes; otherwise exactly one booking is prepended, with the first four cleaned names and the selected song's number |
| Lineup.RemoveFromQueue | src/App.tsx:329-331 | no booking with that id remains |
| Lineup.RemoveFromQueueKeepsOthers | src/App.tsx:329-331 | every other booking is kept as often as before, in order; an absent id changes nothing |
| Lineup.RemoveUndoesCoinIn | src/App.tsx:309-331 | removing a fresh booking's id after coin-in gives back the lineup from before |
| Lineup.RemoveSeedExample | src/App.tsx:227-231 | removing "seed-2" from the seeded lineup leaves seed-1 and seed-3 |
| Seqs.FilterMembers | src/App.tsx:237 | every element `filter` keeps comes from the filtered sequence |
| LineupPage.FilteredMembers | src/App.tsx:234-238 | every card of the filtered list is a card of the list searched |
| LineupPage.Start | src/App.tsx:225-258 | after the mount effect the page opens with a good state on "Don't Stop Me Now" (buffer "11"), one empty name, the seeded lineup, no search text, the first card and no playback |
| LineupPage.ShowCardOfCatalogue | src/App.tsx:253-258 | the card effect on a catalogue card leaves a two-digit buffer that selects exactly that card |
| LineupPage.Settle | src/App.tsx:240-258 | when the filtered list becomes a new object, the position is re-clamped only if the length changed, and an empty list leaves the buffer alone |
| LineupPage.SettleShowsCard | src/App.tsx:240-258 | from a position inside the old list, the effects end inside a non-empty new list with the buffer selecting the card there, whatever the buffer held |
| LineupPage.EditFilter | src/App.tsx:233-258 | a search edit changes only the search text, the position and the buffer; the same text changes nothing; two blank queries keep the same list object, so the position and the buffer stay |
| LineupPage.FilterEditShowsCard | src/App.tsx:233-258 | a search edit that yields a new non-empty list overwrites the keypad buffer with the number of the card shown |
| LineupPage.EditFilterGood | src/App.tsx:233-258 | a search edit keeps the buffer at two digits at most and the position inside the new list |
| LineupPage.MoveCard | src/App.tsx:346-356 | a card move changes only the position and the buffer; a move that stays put changes nothing, otherwise the position becomes the clamped target |
| LineupPage.MoveCardShowsCard | src/App.tsx:253-258 | a move to another card keeps the position inside the list and leaves the buffer selecting that card; the page stays good |
| LineupPage.KeyGood | src/App.tsx:284-306 | a keypad key keeps the page good |
| LineupPage.NamesGood | src/App.tsx:750-765 | a performer edit keeps the page good |
| LineupPage.CoinGood | src/App.tsx:309-327 | the coin slot keeps the page good |
| LineupPage.RemoveGood | src/App.tsx:329-331 | removing a booking keeps the page good |
| LineupPage.EndGood | src/App.tsx:270-279 | the end of the playback keeps the page good |
| LineupPage.StepGood | src/App.tsx:284-372 | every input (key, name edit, coin, removal, card move, search edit, end of playback) keeps the page good: buffer of at most two digits, one to four names, position inside the list |
| LineupPage.RunGood | src/App.tsx:225-372 | every sequence of inputs keeps the page good |
| LineupPage.CoinInLocks | src/App.tsx:309-327 | a booking prepends one item and starts the playback, and a second coin right after it does nothing |
| LineupPage.LockedWhilePlaying | src/App.tsx:366 | until the playback ends, no input adds a booking or changes the names, and the page stays locked |
| LineupPage.LockedInputsIgnored | src/App.tsx:780-875 | while playing, keypad keys, name edits and the coin slot (all `disabled={disabled}`) change nothing |
| ButtonPanel.ButtonRows | src/components/jukebox/ButtonPanel.tsx:143-144 | letter button `i` is the `i`-th letter from A, number button `i` is the digit `i` |
| ButtonPanel.LedText | src/components/jukebox/ButtonPanel.tsx:67-69 | the input padded with "_" to three characters; longer input is shown whole |
| ButtonPanel.LetterPress | src/components/jukebox/ButtonPanel.tsx:165-169 | the input becomes that letter and the LED normal; a pending timeout keeps running |
| ButtonPanel.NumberPress | src/components/jukebox/ButtonPanel.tsx:171-179 | a digit is appended only to input of length 1 or 2; the LED goes normal |
| ButtonPanel.ClearInput | src/components/jukebox/ButtonPanel.tsx:181-185 | the input empties and the LED goes normal |
| ButtonPanel.EnterPressed | src/components/jukebox/ButtonPanel.tsx:187-215 | a wrong length or a failed check gives red and the error timeout, and nothing is reported; an accepted code gives green, is reported once, and arms the clearing timeout; the input is kept |
| ButtonPanel.TimerFired | src/components/jukebox/ButtonPanel.tsx:190-214 | after an error the LED returns to normal; after a success the input clears as well; nothing is left pending |
| ButtonPanel.AcceptedAsWrittenParses | src/components/jukebox/ButtonPanel.tsx:198-203 | the validation reads the tail with `parseInt(input.slice(1), 10)` |
| ButtonPanel.LetterIndex | src/components/jukebox/ButtonPanel.tsx:202-203 | `charCodeAt(0) - 65` lies in 0..10 exactly for A–K |
| ButtonPanel.StepKeepsButtonInput | src/components/jukebox/ButtonPanel.tsx:165-185 | one-character letters and digits keep the input empty, or a letter A–K followed by at most two digits 0–6 |
| ButtonPanel.ValidationOnButtonInput | src/components/jukebox/ButtonPanel.tsx:198-206 | on button-producible input, the check as written accepts exactly the 66 codes A01–K06 |
| ButtonPanel.NaNTailAccepted | src/components/jukebox/ButtonPanel.tsx:199-203 | as written, "END" passes because NaN fails both range tests, and "A1x" passes too |
| ButtonPanel.AtLeastA | src/components/jukebox/ButtonPanel.tsx:223 | `key >= "A"` holds exactly for strings whose first character is at least A |
| ButtonPanel.AtMostK | src/components/jukebox/ButtonPanel.tsx:223 | `key <= "K"` holds exactly for the empty string, strings starting below K, and "K" |
| ButtonPanel.KeyboardLetterTest | src/components/jukebox/ButtonPanel.tsx:220-226 | the letter test accepts every upper-cased key name starting with A–J, of any length, and "K" |
| ButtonPanel.NamedKeysUnreachable | src/components/jukebox/ButtonPanel.tsx:220-250 | as written, no key reaches the Backspace, Enter or arrow branches; "Enter", "Backspace" and "End" type "ENTER", "BACKSPACE" and "END" |
| ButtonPanel.CorrectedNamedKeys | src/components/jukebox/ButtonPanel.tsx:233-250 | corrected, Enter submits, Backspace clears, the arrows navigate, and End does nothing |
| ButtonPanel.CorrectedDispatch | src/components/jukebox/ButtonPanel.tsx:222-231 | corrected, keyboard letters and digits are single characters from the button rows |
| ButtonPanel.DispatchAsWritten | src/components/jukebox/ButtonPanel.tsx:219-250 | as written, a key is a letter exactly when its upper-cased name starts with A–J or is "K", and then the whole upper-cased name is typed; a number also types the whole upper-cased name |
| ButtonPanel.DispatchCorrected | src/components/jukebox/ButtonPanel.tsx:219-250 | corrected, a key is a letter exactly when it is one character A–K in either case (typed upper-case), a number exactly when it is one character 0–6; clear, submit and the two navigations are reached exactly by Backspace, Enter, ArrowUp and ArrowDown |
| ButtonPanel.KeysFixedAgrees | src/components/jukebox/ButtonPanel.tsx:198-250 | on button-producible input, correcting only the keyboard handler gives the same step as correcting both defects |
| ButtonPanel.KeyFixAloneSuffices | src/components/jukebox/ButtonPanel.tsx:198-250 | with only the keyboard handler corrected, every run equals the fully corrected run, so the validation as written then reports only A01–K06 |
| ButtonPanel.KeyCorrectedKeepsButtonInput | src/components/jukebox/ButtonPanel.tsx:218-250 | corrected, every key keeps the input button-producible |
| ButtonPanel.HandleCorrectedKeepsButtonInput | src/components/jukebox/ButtonPanel.tsx:165-250 | corrected, every key, button or timeout keeps the input button-producible |
| ButtonPanel.CorrectedReportsOnlySongCodes | src/components/jukebox/ButtonPanel.tsx:198-210 | corrected, every code ever reported over any run of inputs is one of A01–K06 |
| ButtonPanel.ButtonAgrees | src/components/jukebox/ButtonPanel.tsx:165-215 | on button-producible input, each button does the same as written and corrected |
| ButtonPanel.ButtonsAloneAgree | src/components/jukebox/ButtonPanel.tsx:165-215 | with buttons only, as-written and corrected runs end on the same panel and report the same codes |
| ButtonPanel.EndKeyThenOkReportsEnd | src/components/jukebox/ButtonPanel.tsx:199-225 | as written, the End key followed by OK reports "END" |
| ButtonPanel.TypeA01 | src/components/jukebox/ButtonPanel.tsx:220-231 | the keys a, 0, 1 type "A01" in both versions |
| ButtonPanel.LetterKeyA | src/components/jukebox/ButtonPanel.tsx:220-226 | the key "a" types the letter A |
| ButtonPanel.DigitKeys | src/components/jukebox/ButtonPanel.tsx:228-231 | the keys "0" and "1" type digits |
| ButtonPanel.EnterKeyOverwritesCode | src/components/jukebox/ButtonPanel.tsx:220-241 | as written, a, 0, 1, Enter leaves "ENTER" on the LED and reports nothing |
| ButtonPanel.EnterKeyReportsCode | src/components/jukebox/ButtonPanel.tsx:220-241 | corrected, the same keys report "A01" and show green |
| ButtonPanel.SuccessTimeoutOutlivesLetter | src/components/jukebox/ButtonPanel.tsx:165-214 | only OK cancels the timeout: a letter pressed after a success is wiped when it fires |
| RolodexPanel.BlockANumbered | src/components/jukebox/Rolodex.tsx:15-36 | catalogue rows 1–22 are numbered 1..22 |
| RolodexPanel.BlockBNumbered | src/components/jukebox/Rolodex.tsx:37-58 | rows 23–44 are numbered 23..44 |
| RolodexPanel.BlockCNumbered | src/components/jukebox/Rolodex.tsx:59-80 | rows 45–66 are numbered 45..66 |
| RolodexPanel.CatalogueNumbering | src/components/jukebox/Rolodex.tsx:14-81 | 66 songs, numbered 1 to 66 in order |
| RolodexPanel.ToSong | src/components/jukebox/Rolodex.tsx:83-91 | id and number are both the decimal string of `no`; title, artist and year are copied |
| RolodexPanel.CatalogueIdsDistinct | src/components/jukebox/Rolodex.tsx:83-91 | different catalogue songs get different ids |
| RolodexPanel.GetPages | src/components/jukebox/Rolodex.tsx:93-102 | one page per block of six songs, with the block's first three on top and the next three (at most) below; ceil(n/6) pages |
| RolodexPanel.FlattenPrefix | src/components/jukebox/Rolodex.tsx:93-102 | the first `k` pages read back the first `6k` songs |
| RolodexPanel.PagingRoundTrip | src/components/jukebox/Rolodex.tsx:93-102 | reading the pages' top then bottom in order gives back the song list |
| RolodexPanel.PageSizes | src/components/jukebox/Rolodex.tsx:95-99 | every strip holds at most three songs, every page but the last is full, and no page has an empty top |
| RolodexPanel.CataloguePages | src/components/jukebox/Rolodex.tsx:93-102 | the catalogue gives 11 full pages, page `p` starting at song `6p+1` |
| RolodexPanel.StripCells | src/components/jukebox/Rolodex.tsx:307-313 | a strip shows its songs in order, then blanks up to three cells |
| RolodexPanel.StripsHaveThreeCells | src/components/jukebox/Rolodex.tsx:298-316 | every strip of every page has exactly three cells |
| RolodexPanel.SongClick | src/components/jukebox/Rolodex.tsx:202-206 | a click reports a song exactly when a callback is given, with that song's number and title |
| RolodexPanel.CatalogueClick | src/components/jukebox/Rolodex.tsx:202-206 | clicking cell `k` of page `p` reports catalogue song `6p+k+1` (bottom: `6p+3+k+1`); without a callback nothing |
| RolodexPanel.KeyNav | src/components/jukebox/Rolodex.tsx:193-194 | ArrowDown or j means down, ArrowUp or k means up, and nothing else navigates |
| RolodexPanel.Turn | src/components/jukebox/Rolodex.tsx:174-189 | a turn stays on an existing page and moves at most one page: forward exactly when turning down before the last page, back exactly when turning up after the first |
| RolodexPanel.PageIndexInRange | src/components/jukebox/Rolodex.tsx:171-194 | any key sequence keeps the page index inside the pages and moves it at most one per key |
| RolodexPage.CardsNumbered | src/pages/Rolodex.tsx:8-19 | ten cards numbered 11 to 20 |
| RolodexPage.GoDown | src/pages/Rolodex.tsx:31-36 | the stack changes exactly when a later card exists, and then moves one card on with direction down; the index stays on a card |
| RolodexPage.GoUp | src/pages/Rolodex.tsx:38-43 | the stack changes exactly when an earlier card exists, and then moves one card back with direction up; the index stays on a card |
| RolodexPage.DisabledMeansNoMove | src/pages/Rolodex.tsx:90-103 | a button is disabled exactly when pressing it would change nothing |
| RolodexPage.IndexInRange | src/pages/Rolodex.tsx:28-54 | from any card, any key sequence keeps the index in 0..9 |
| RolodexPage.PressKeyMoves | src/pages/Rolodex.tsx:47-54 | a key moves at most one card, the direction follows the move, and keys other than ArrowDown/j/ArrowUp/k do nothing |
| RolodexPage.VisibleCards | src/pages/Rolodex.tsx:61 | the cards from the current one on, at most four: `min(4, 10 - index)` of them |
| RolodexPage.VisibleWindow | src/pages/Rolodex.tsx:61 | the current card is drawn first, with one to four cards in view |
| RolodexPage.DrawOrderStacks | src/pages/Rolodex.tsx:116-189 | every visible card is drawn once, deepest first; the top card is the current one, is drawn last and has the highest z-index; each card's z-index is the stack size minus its depth |
| TicketQueue.TicketAlphabet | src/hooks/useQueue.ts:6 | 24 distinct capital letters, neither I nor O |
| TicketQueue.TicketNumber | src/hooks/useQueue.ts:5-10 | a ticket letter, "-", and the three-digit number 100 + draw |
| TicketQueue.TicketNumberOnto | src/hooks/useQueue.ts:5-10 | every string of that five-character format can be drawn |
| TicketQueue.TicketNumberInjective | src/hooks/useQueue.ts:5-10 | different draws give different tickets |
| TicketQueue.ThreeDigitRange | src/hooks/useQueue.ts:8 | a three-digit numeral without a leading zero lies in 100..999 |
| TicketQueue.AddToQueue | src/hooks/useQueue.ts:15-26 | exactly one entry is appended and returned, with the given name and song and a well-formed ticket; earlier entries stay |
| TicketQueue.RemoveFromQueue | src/hooks/useQueue.ts:28-30 | no entry with that id remains |
| TicketQueue.RemoveKeepsOthers | src/hooks/useQueue.ts:28-30 | every other entry is kept as often as before, in order |
| TicketQueue.RemoveAbsentOrTwice | src/hooks/useQueue.ts:28-30 | an absent id changes nothing, and removing twice equals removing once |
| TicketQueue.RemoveUndoesAdd | src/hooks/useQueue.ts:15-30 | removing the id of the entry just added gives back the queue from before |
| TicketQueue.AddTwiceKeepsBoth | src/hooks/useQueue.ts:15-25 | nothing is de-duplicated: the same name and song added twice give two entries |
| TicketQueue.ClearQueue | src/hooks/useQueue.ts:32-34 | `clearQueue` leaves no entry, whatever the queue held |
| TicketQueue.ClearThenAdd | src/hooks/useQueue.ts:15-34 | after clearing, the next entry added is the only one, and removing any id leaves the queue empty |
| Wizard.StartSignUp | src/hooks/useJukeboxState.ts:18-22 | to enter-name exactly when a song is selected, from any stage; otherwise nothing changes |
| Wizard.SelectSong | src/hooks/useJukeboxState.ts:13-16 | from any stage, the song becomes the selection and the stage song-selected; the queue, last entry and name are untouched |
| Wizard.ResetState | src/hooks/useJukeboxState.ts:42-47 | back to idle with no song, no name and no last entry; the queue is kept |
| Wizard.CompletionEvents | src/hooks/useJukeboxState.ts:33-40 | `onPlayComplete` and `submitPayment` both only set the stage to complete, which arms the auto-reset, and its firing then gives what `reset` gives |
| Wizard.ClearKeepsSignUp | src/hooks/useQueue.ts:32-34 | `clearQueue` empties the queue and keeps the stage, the selection, the name and the last entry, whose ticket is then no longer queued |
| Wizard.SubmitName | src/hooks/useJukeboxState.ts:24-31 | the name is stored and the stage is complete; with a song, one entry for name and song is appended and becomes the last entry; without one, the queue and last entry are kept |
| Wizard.InitialGood | src/hooks/useJukeboxState.ts:7-13 | the initial state satisfies the invariant |
| Wizard.SubmitKeepsGood | src/hooks/useJukeboxState.ts:24-31 | submitting a name appends only a well-formed ticket |
| Wizard.RemoveKeepsGood | src/hooks/useQueue.ts:28-30 | removing entries keeps every remaining ticket well formed |
| Wizard.StepGood | src/hooks/useJukeboxState.ts:13-47 | every action keeps the invariant: never playing or payment, song-selected and enter-name always with a song, every ticket well formed |
| Wizard.RunGood | src/hooks/useJukeboxState.ts:7-47 | from the start, no sequence of actions reaches playing or payment |
| Wizard.QueueGrowth | src/hooks/useJukeboxState.ts:24-31 | the queue grows only by `submitName` with a song selected, by one entry at the end |
| Wizard.ResetKeepsQueue | src/components/jukebox/SignUpWizard.tsx:30-35 | reset keeps the queue; the timeout resets only while complete |
| Wizard.FormSubmit | src/components/jukebox/SignUpWizard.tsx:64-69 | the form submits exactly when the input is not blank, and then the trimmed input |
| Wizard.DisabledIffNoSubmit | src/components/jukebox/SignUpWizard.tsx:82 | the button is disabled exactly when submitting would do nothing |
| Wizard.FormNameNeverBlank | src/components/jukebox/SignUpWizard.tsx:64-69 | a name from the form is never blank, and resubmitting it changes nothing |
| Wizard.PanelFor | src/components/jukebox/SignUpWizard.tsx:40-110 | the song card appears exactly with a selected song, the ticket exactly with a last entry; payment shows nothing |
| Wizard.ReachablePanels | src/components/jukebox/SignUpWizard.tsx:40-110 | in reachable states "adding to queue" never shows, and a blank panel means complete without an entry |
| Wizard.SubmitWithoutSong | src/hooks/useJukeboxState.ts:24-31 | a name with no song completes with no ticket, and the timeout returns to the start |
| Wizard.SignUpFlow | src/hooks/useJukeboxState.ts:13-31 | pick, start, submit: one queue entry for that name and song, the ticket panel, then the start again |
| Wurlitzer.HandlePlay | src/components/jukebox/Wurlitzer.tsx:20-26 | only when idle: sliding, with rising, lifting and playing scheduled in that order (the page's `handlePlay` in src/pages/Wurlitzer.tsx does the same) |
| Wurlitzer.HandleReset | src/components/jukebox/Wurlitzer.tsx:45-48 | back to idle and on to the next record, from 14 back to 0; pending stage timeouts are kept (the page's `handleReset` does the same) |
| Wurlitzer.EnterStage | src/components/jukebox/Wurlitzer.tsx:36-43 | a stage change keeps the record and the pending timeouts; entering playing arms the "played" notification, staying in playing keeps it as it was, and any other stage cancels it |
| Wurlitzer.TriggerActsAsPlay | src/components/jukebox/Wurlitzer.tsx:29-33 | the trigger starts a play exactly as Play does, only while idle |
| Wurlitzer.InitialConsistent | src/components/jukebox/Wurlitzer.tsx:15-16 | idle at record 0 with nothing pending is on schedule |
| Wurlitzer.StepForward | src/components/jukebox/Wurlitzer.tsx:20-26 | every offered event keeps the schedule; apart from Reset (playing to idle), the stage only moves forward, one stage at a time |
| Wurlitzer.StartIsPlayBegun | src/components/jukebox/Wurlitzer.tsx:20-33 | an event counts as a start exactly when it takes the idle player into sliding; a Play or trigger ignored because a play is under way is not one |
| Wurlitzer.StepCredit | src/components/jukebox/Wurlitzer.tsx:36-43 | a notification uses up the credit of its play; only a play actually started adds one |
| Wurlitzer.RunOnSchedule | src/components/jukebox/Wurlitzer.tsx:20-48 | over any run of offered events: on schedule, and at most one notification per play started |
| Wurlitzer.PlaySequence | src/components/jukebox/Wurlitzer.tsx:20-43 | Play and the three timeouts reach playing; the notification then fires once, not twice |
| Wurlitzer.ResetCancelsNotify | src/components/jukebox/Wurlitzer.tsx:36-48 | Reset before the notification cancels it |
| Wurlitzer.EarlyResetKeepsTimeouts | src/components/jukebox/Wurlitzer.tsx:45-48 | Reset does not cancel stage timeouts: pressed mid-animation, they would move the idle player on |
| Wurlitzer.ResetsAdd | src/components/jukebox/Wurlitzer.tsx:47 | `n` resets advance the record by `n` modulo 15 |
| Wurlitzer.RecordCycle | src/components/jukebox/Wurlitzer.tsx:47 | every reset changes the record, and any multiple of fifteen resets brings it back |
| Wurlitzer.RecordStackY | src/components/jukebox/Wurlitzer.tsx:18 | for records 0..14: a multiple of 8 in 0..112, 8 per record above the current one (the page's copy is identical) |
| Wurlitzer.RecordStackSlots | src/components/jukebox/Wurlitzer.tsx:76-80 | the stack slots `(14 - i) * 8` are 8 apart with the first record on top at 112 and the last at 0; the moving record starts from its own slot, and each reset moves it down one slot, from the last back to the first |
| Wurlitzer.ControlsFor | src/components/jukebox/Wurlitzer.tsx:167-186 | with controls shown: Play exactly when idle, Reset exactly when playing, otherwise nothing on the component and a "<stage>..." label on the page (src/pages/Wurlitzer.tsx, lines 177-196) |
| Wurlitzer.ControlsMatchOffered | src/components/jukebox/Wurlitzer.tsx:177-185 | Reset is shown only where the model's event guard allows it |
| Text.Trim | src/App.tsx:73 | empty exactly for blank input, never longer than the input, and otherwise neither starting nor ending with white space |
| Text.TrimIdempotent | src/components/jukebox/SignUpWizard.tsx:66-67 | trimming twice is trimming once |
| Text.PadStart | src/App.tsx:69 | `padStart`: the width is reached with the fill at the front, and the string is kept at the end |
| Text.PadEnd | src/components/jukebox/ButtonPanel.tsx:69 | `padEnd`: the string is kept at the front, and the fill reaches the width |
| Text.NatToString | src/App.tsx:257 | `String(n)`: digits with no leading zero, whose value is `n` |
| Text.NatToStringOfNumeral | src/App.tsx:257 | a numeral with no leading zero is `String` of its value |
| Text.IncludesIff | src/App.tsx:237 | `includes` holds exactly when the needle occurs at some position |
| Text.DigitPrefix | src/components/jukebox/ButtonPanel.tsx:199 | `parseInt` reads the longest run of leading digits |
| Text.ParseIntOfDigits | src/components/jukebox/ButtonPanel.tsx:199 | `parseInt` of a digit string is its decimal value |
| Text.ParseIntTwoChars | src/components/jukebox/ButtonPanel.tsx:199 | the case-by-case reading of a two-character tail agrees with `parseInt` on every input |
| Seqs.FilterMultiset | src/hooks/useQueue.ts:29 | `filter` keeps each element that passes as often as it occurs, and drops the rest |
| Seqs.FilterSubsequence | src/hooks/useQueue.ts:29 | `filter` keeps the original order |
| Seqs.FilterIdempotent | src/hooks/useQueue.ts:29 | filtering twice by the same test is filtering once |
| Seqs.Slice | src/pages/Rolodex.tsx:61 | `slice(from, to)`: the elements from `from` up to `to`, with both ends clamped to the length |

## Findings

| source | as written | input that shows it | evidently intended | confidence | as-written member | corrected member |
|---|---|---|---|---|---|---|
| src/components/jukebox/ButtonPanel.tsx:223 | `key >= "A" && key <= "K"` compares the whole upper-cased key name as a string, so every key name starting with A–J counts as a letter. The Backspace, Enter and ArrowUp/ArrowDown branches at lines 233-250 are never reached | keys a, 0, 1, Enter: the LED shows "ENTER" and no code is reported | only a one-character key A–K is a letter; Enter submits "A01" | high (not executed) | ButtonPanel.NamedKeysUnreachable, ButtonPanel.EnterKeyOverwritesCode | ButtonPanel.CorrectedNamedKeys, ButtonPanel.EnterKeyReportsCode |
| src/components/jukebox/ButtonPanel.tsx:199-203 | `num < 1 \|\| num > 6` is false when `parseInt` gives NaN, so a three-character input with a non-numeric tail passes | the End key (typed as "END" by the defect above), then OK: "END" is reported as a song | only A01–K06 are accepted | high (not executed) | ButtonPanel.NaNTailAccepted, ButtonPanel.EndKeyThenOkReportsEnd | ButtonPanel.CorrectedReportsOnlySongCodes |

In each row, the as-written members model the code as it is and exhibit the input. The corrected
version, `Variant.Corrected`, fixes both defects, and every code it ever reports is a song code.
With buttons alone, the two versions behave the same (`ButtonPanel.ButtonsAloneAgree`): both
defects are only reachable from the keyboard. Correcting the keyboard handler alone is enough
(`Variant.KeysFixed`, `ButtonPanel.KeyFixAloneSuffices`): the input then never leaves what the
buttons produce, where the validation as written accepts exactly the song codes.

## Left out

- Web Audio sound effects (`useSfx`, `useClackSfx`): browser API calls with floating-point envelopes and random noise; they change no state the model keeps.
- The playback progress ticker, the "now playing" card and the toast on the lineup page: floating-point progress driven by `setInterval`. The end of the playback is the event `LineupPage.PlaybackEnded`.
- Timer durations: only the order in which timeouts fire is kept. Wurlitzer's three stage timeouts are assumed to fire in their scheduled order (800 < 1400 < 2000 ms).
- Presentational components, layout and animation values (scale, opacity, rotation, y offsets other than `recordStackY`): markup with no statable behaviour.
- The help tooltip's localStorage, routing, and the page wiring between the hook and the components.
- React scheduling: stale closures and batched updates. Each handler is one atomic transition. The lineup page's two effects are the exception: their order and the card effect's stale position are modelled in `LineupPage.Settle`.
- LineupPage: the `await sfx.resumeIfNeeded()` before the keypad, card-move and coin-in updates is taken as immediate, so an update that a click made just before the playback started, but that lands after it, is not modelled. Timers restarted because a callback prop changed identity (`onPlayComplete`, `onReset`) are not modelled.
- ButtonPanel navigation: ArrowUp/ArrowDown call the parent's `onNavigateUp`/`onNavigateDown`, subject to `canNavigateUp`/`canNavigateDown`. The model only states that the panel itself is unchanged.
- The wizard's local `nameInput` text box: the form is modelled as a function of its content at submit time.
- Randomness, identifiers and clock: the "#" key's draw, the ticket letter and number draws, `crypto.randomUUID` and its fallback, and `Date.now()` are parameters. The draws are limited to their ranges by preconditions.
- Lineup.SelectedSong: `Number(digits)` is modelled only on digit strings; any other string selects nothing. The buffer only ever holds digits (`Lineup.BufferStaysShort`), so JavaScript's other numeric forms ("1e1", " 12") cannot arise.
- Lineup.ShowCard: the selection is stated only for cards from the catalogue. The flipbook only ever shows filtered catalogue cards (`LineupPage.FilteredMembers`).
- Text.ToUpper, Text.ToLower: only ASCII letters change case; JavaScript's full Unicode case mapping is not modelled. Key names (`e.key` can be any character of the keyboard layout) and the search query are free Unicode text, so the model differs for keys and queries outside ASCII: the Turkish "ı" upper-cases to "I" and types the letter I in the browser, while the model gives no action; the Kelvin sign "K" lower-cases to "k" in the browser and so matches songs containing "k", while the model keeps it.
- Wurlitzer.RecordStackY: stated only for records 0..14, the only ones `handleReset` produces.
- Wurlitzer.Trigger: the parent's `triggerPlay` prop is a held value whose effect re-runs on every stage change (src/components/jukebox/Wurlitzer.tsx:29-33). The model has a `Trigger(true)` event that may arrive at any time, so a held trigger's immediate restart after a reset is one allowed run, not one the model forces.
- Wurlitzer.StepForward: Play and the trigger are not restricted by the controls, since `handlePlay` guards itself. Only Reset is limited to the playing stage, as the controls show it only then.
