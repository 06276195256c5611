# Catchphrase game server, modelled in Dafny

This project models the core of a multiplayer word-guessing game (a
"catchphrase" or "cards against the clock" party game), in three parts:

- **The server's game coordinator** (`server/index.ts`). It keeps:
  - a table of games keyed by four-letter codes;
  - three maps that link sockets to teams and games;
  - the live turn timers.
  
  Each socket handler drives one game through its steps: hosting, joining,
  starting, starting a turn, guessing, skipping, ending a turn, the clock
  tick, and disconnecting.
- **The word filter and shuffle** (`server/utils/wordUtils.ts`).
- **The client's state reducer** (`src/store/index.ts`).

Layout, one module per file:

| file | module | what it holds |
|---|---|---|
| `wrappers.dfy` | `Wrappers` | `Option` |
| `random.dfy` | `Random` | a `Math.random()` draw as a real in [0, 1), and the index `Math.floor(draw * n)` it picks |
| `words.dfy` | `Words` | corpus words, `getWords`, `shuffleWords` |
| `scores.dfy` | `Scores` | a JavaScript score object as an insertion-ordered list of entries: lookup, assignment, and the winner `reduce` |
| `session.dfy` | `Session` | game records as values, plus each step a handler applies to a game: settings defaults, team lookups, authorization, turn index arithmetic, the word pool, the turn updates, the end of a turn, the clock |
| `server.dfy` | `Server` | class `GameServer`, with the tables as fields and one method per handler or helper |
| `store.dfy` | `Store` | class `GameStore`, with the slice state as fields and one method per reducer |

Modelling choices:

- **Randomness.** Every use of `Math.random()` becomes a `draw` parameter with
  `0 <= draw < 1`.
- **Live sockets.** The `io.sockets` / room lookups become parameters: the
  live socket set and the room's socket set.
- **Timers.** `setInterval` hands out a fresh handle, recorded in
  `timers : handle -> game code`, and `clearInterval` removes the handle.
  `Tick(h)` is one firing of interval `h`. A cleared interval never fires, so
  ticking a handle that is not live changes nothing.
- **Outcomes.** What a handler sends back to the requester is its `Outcome`:
  - `Done`;
  - `GameOver(winner)`;
  - `Rejected(message)`, with the source's exact error text;
  - `Ignored`, a silent return;
  - `Fault`, a TypeError that no `catch` handles: reading a field of
    `undefined`, or a `reduce` of an empty array. State written before the
    throw is kept.

Behaviour of the code modelled as written:

- `start-turn` accepts a socket linked to the active team through either
  socket map. `word-guessed`, `word-skipped` and `end-turn` compare only the
  raw socket id with the team id.
- `host-game` stores its game without checking whether the code is already
  in use. A host-supplied duration of 0 becomes 30, because the source uses `||`.
- `start-game` can be repeated while a game runs. It does not stop the
  interval that is running.
- The `end-turn` handler does not stop the running interval. `endTurn`
  does stop it.
- The tick tests `timeRemaining <= 0` before decrementing. A turn of `t`
  seconds therefore expires on tick `t + 1`.
- Scores are keyed by team id. `updateSocketId` can rename a team while its
  old id stays in the score table.
- When a tie is broken, the winner is the LAST top-scoring entry, because the
  `reduce` keeps the accumulator only when it is strictly greater.
- `disconnect` does not revalidate `currentTeamIndex`, so it can point beyond
  the team list. Then `word-guessed`, `word-skipped` and `end-turn` throw,
  `start-turn` reports "Failed to start turn", and `identify-team` only logs
  the error. The clock is unaffected: when it expires, `endTurn` computes
  `(i + 1) % n`, which brings the index back into range.
- With no teams, `(i + 1) % 0` is NaN (`TeamIndex.NotANumber`).
- An unset `settings.rounds` makes "round exceeds rounds" false forever.
- A game's capacity is never checked.
- The no-words case of `start-turn` reports an error and changes nothing.

## Model

| member | source | states |
|---|---|---|
| Random.PickIndex | server/index.ts:108 | `Math.floor(draw * n)` for a draw in [0, 1) is a valid index below `n` |
| Random.PickIndexOnto | server/index.ts:108 | every index `k < n` is picked by some draw (the draw `k/n`) |
| Words.GetWords | server/utils/wordUtils.ts:9-18 | no longer than the corpus; a word is in the result iff it is in the corpus with its category among the categories and its difficulty among the difficulties; empty categories or difficulties give no words |
| Words.GetWordsAppend | server/utils/wordUtils.ts:13-17 | filtering distributes over concatenation, so corpus order is kept |
| Words.GetWordsKeepsAll | server/utils/wordUtils.ts:13-17 | when every entry passes, the result is the corpus itself |
| Words.ShuffleWords | server/utils/wordUtils.ts:20-22 | the result is a permutation of the input: same length, same multiset |
| Scores.Get | server/index.ts:591 | a missing key reads as 0; a present key reads as the value of one of its entries |
| Scores.AddPoint | server/index.ts:590-591 | the `(score \|\| 0) + 1` update raises that key's score by exactly one, leaves every other key's value as it was, adds the key if it was missing and keeps keys distinct |
| Scores.Lookup | server/index.ts:590-591 | a key has a value iff it is among the object's keys; the value found belongs to an entry of that key, and with distinct keys it is that entry's value |
| Scores.Set | server/index.ts:392 | assigning a key adds it to the keys; a new key is appended at the end; an existing key keeps the length and the key order |
| Scores.SetLookup | server/index.ts:590-591 | after assigning `k := v`, `k` reads `v` and every other key reads what it read before |
| Scores.SetLookupAll | server/index.ts:590-591 | the same, for all keys at once |
| Scores.SetDistinct | server/index.ts:590-591 | assignment keeps the keys distinct |
| Scores.WinnerIndex | server/index.ts:942-943 | the winning entry's score is at least every score, and every later entry scores strictly less, so ties go to the last top entry |
| Session.CodeOf | server/index.ts:104-111 | the code has one letter per draw, each in A–Z |
| Session.EveryCodeReachable | server/index.ts:104-111 | every four-letter A–Z code can be generated |
| Session.HostedSettings | server/index.ts:206-211 | the round limit is the host's; the duration is never 0 (30 when missing or 0, else the given one); categories default to none and difficulties to `easy` |
| Session.NewGame | server/index.ts:203-213 | the host's team alone, `hostId` the caller, not started; the duration is 30 iff it was missing, 0 or 30, and otherwise the given one; categories default to none and difficulties to `easy` |
| Session.LowerAsciiSpec | server/index.ts:368 | lower-casing keeps the length, leaves no capital letter, keeps every other character, and is idempotent |
| Session.Claims | server/index.ts:805-819 | a team matches only by the claimed id or the claimed name; a non-empty claimed id or name always matches its team; an empty claim matches nothing |
| Session.ClaimsFirstMatch | server/index.ts:805-819 | `identify-team` binds to a team no later in the list than any team named by a non-empty claimed id or name |
| Session.FindFirst | server/index.ts:806-822 | the result is the position of the first team satisfying the predicate; none means no team does |
| Session.RenameTeam | server/index.ts:126-130 | only the first team with the old id gets the new id; without such a team, nothing changes |
| Session.RemoveTeam | server/index.ts:679 | a team survives iff its id is not the leaving socket's; no match leaves the list unchanged |
| Session.RemoveTeamAppend | server/index.ts:679 | removal works piecewise over concatenation, so the surviving teams keep their turn order |
| Session.WordRecipients | server/index.ts:521-572 | every recipient is live and linked to the active team; nobody receives the word iff the reverse mapping, the team id and the room scan all find no live socket |
| Session.StepsClosedForm | server/index.ts:920-927 | after `k` turn ends from index `i`, the index is `(i + k) mod n` and the round has grown by `(i + k) div n` |
| Session.GameLength | server/index.ts:920-930 | from team 0 in round 1, the round passes `rounds` exactly when `rounds * n` turns have ended |
| Session.CategoryPool | server/index.ts:469-472 | a word is in the pool iff it is available, unused and of the current category |
| Session.PoolMonotone | server/index.ts:596-599 | more used words never make the pool longer |
| Session.PoolShrinks | server/index.ts:593-599 | marking a pool word used makes the pool strictly shorter, so a category runs dry |
| Session.Pick | server/index.ts:480-481 | the chosen word is in the pool |
| Session.ZeroScores | server/index.ts:390-393 | keys are distinct and are exactly the team ids, each with score 0 |
| Session.ZeroScoresInTeamOrder | server/index.ts:390-393 | with distinct team ids, entry `i` of the table is team `i`'s id with score 0 |
| Session.InitialTurn | server/index.ts:366-393 | team 0, round 1, a full clock, not started, no interval, nothing used or recorded, the first category, every team at 0, and the available words exactly the corpus words that pass the lower-cased filter |
| Session.StartedTurn | server/index.ts:484-493 | the word is added to the used words and shown, the clock is reset to the duration, the turn is started with the new interval, and nothing else changes |
| Session.Guessed | server/index.ts:590-593 | the team's score goes through `AddPoint` (one point up, no other key changed); the word is appended to `guessed` and added to the used words; `skipped` and every other field are unchanged |
| Session.Skipped | server/index.ts:634-635 | the word is appended to `skipped` and added to the used words; scores, `guessed` and every other field are unchanged |
| Session.Prepared | server/index.ts:967-972 | `guessed`, `skipped`, the word and the started flag are cleared; scores, index, round, category and used words are untouched |
| Session.AfterTurn | server/index.ts:920-972 | the game is deleted iff the new round exceeds the limit and there are scores, and then the winner is the `WinnerIndex` entry's team; with no scores it faults; otherwise the turn is prepared, and it faults iff the new index names no team; nothing outside `currentGame` changes |
| Session.NextIndex | server/index.ts:920-921 | the next index is a position iff the old one is and teams exist; it is `(i + 1) mod n`, below `n` |
| Session.Step | server/index.ts:920-926 | the round grows by one iff the next index is 0, and otherwise stays |
| Session.Exceeded | server/index.ts:929 | an unset round limit is never exceeded; a set one is exceeded iff the round is above it |
| Session.AfterTurnKeepsIndexValid | server/index.ts:920-926 | from any index, even one beyond the team list, with teams present, the next index is `(i + 1) mod n` and the round grows iff the index wraps to 0 |
| Session.Countdown | server/index.ts:501-506 | a tick leaves the clock running iff time remains, and then the time drops by exactly one second, staying at 0 or above |
| Session.CountdownLength | server/index.ts:493-507 | a clock started at `t` counts down to 0 over `t` ticks and expires on tick `t + 1` |
| Server.GenerateGameCode | server/index.ts:104-111 | the loop builds a four-letter A–Z code, the one `CodeOf` gives for the draws |
| Server.InitialScores | server/index.ts:390-393 | the `forEach` gives the score table `ZeroScores` describes |
| Server.Disconnected | server/index.ts:668-683 | after the sweep, a game remains iff the leaving socket did not host it; each remaining game lost only that socket's team; no hosted game's stored interval (`currentGame.timer`) is live; an interval a repeated `start-game` left unstored is not covered |
| Server.GameServer.constructor | server/index.ts:24-51 | all tables start empty |
| Server.BoundGame | server/index.ts:121-124 | a game is found iff the socket is bound to a non-empty code of a live game, and it is that code |
| Server.GameServer.UpdateSocketId | server/index.ts:114-135 | both socket maps record the reconnect; if the old socket was bound to a live game, the first team with the old id is renamed and the binding moves to the new socket; otherwise nothing else changes |
| Server.GameServer.MapTeamToSocket | server/index.ts:156-173 | the socket and the team are linked both ways and the socket is bound to the game |
| Server.GameServer.RegisterPlayer | server/index.ts:184-192 | a non-empty previous id is taken over as `updateSocketId` does it: both id maps are updated, the bound game's team is renamed and the game binding moves to the new socket, timers are untouched; otherwise nothing changes |
| Server.GameServer.IdentifyTeam | server/index.ts:794-853 | binds the socket to the first team claimed by id or by name; returns the word only to the active team of a started turn; without a match, nothing changes |
| Server.GameServer.JoinRoom | server/index.ts:712-727 | the socket is bound to a live game; nothing else changes |
| Server.GameServer.HostGame | server/index.ts:195-240 | the game is stored under a generated four-letter code; a missing settings payload is rejected with the source's message, and nothing is stored |
| Server.GameServer.JoinTeam | server/index.ts:275-339 | a missing or started game is rejected with no change; otherwise exactly one team is appended and the socket is mapped |
| Server.GameServer.Disconnect | server/index.ts:668-683 | the loop deletes the games the socket hosted and stops their intervals, and filters the socket's team out of every other game |
| Server.GameServer.StartGame | server/index.ts:342-421 | a missing game or a non-host is rejected with no change; otherwise `InitialTurn` is installed; with no teams the start fails after that |
| Server.GameServer.ClearInterval | server/index.ts:490-492 | the interval is no longer live; nothing else changes |
| Session.LinkedToTeam | server/index.ts:443-449 | a socket is linked to a team iff it is the team id, it maps to the team id, or the team id maps back to it |
| Session.RawTurnGuard | server/index.ts:584-587 | the guard used by `word-guessed`, `word-skipped` and `end-turn`: the call goes ahead iff a turn exists and the active team's id is the socket id; it faults iff the active team is undefined; otherwise it is ignored |
| Session.RawGuardImpliesLinked | server/index.ts:584-587 | every socket the raw-id guard accepts is also linked to the active team |
| Session.MappedSocketOnlyStarts | server/index.ts:443-449 | a socket linked to the active team only through `socketIdMap` may start the turn, but the raw-id guard ignores its guesses |
| Server.GameServer.StartTurn | server/index.ts:425-579 | rejects a missing or unstarted game, an unnamed active team, a socket not linked to the active team, and an empty pool, each with no change; otherwise `StartedTurn` with a pool word and a fresh interval handle, one no live interval holds, replacing the stored one, and the word goes to `WordRecipients` |
| Server.GameServer.PrepareTurn | server/index.ts:957-996 | the turn state becomes `Prepared`, and it faults iff the index names no team |
| Session.ActiveTeam | server/index.ts:439 | `teams[currentTeamIndex]` (also at lines 586, 630, 690, 834 and 975) is a team iff the index is a number below the team count, and then it is the team at that position; a NaN or stale index gives `undefined` |
| Session.WinnerName | server/index.ts:945-948 | never empty; "Unknown Team" when no team has the winning id, otherwise that team's name when it is non-empty |
| Server.GameServer.EndGame | server/index.ts:937-954 | with scores, the game is deleted and the winner named; with none, it faults without deleting |
| Server.GameServer.AdvanceTurn | server/index.ts:920-934 | the table becomes what `AfterTurn` says |
| Server.GameServer.EndTurn | server/index.ts:900-935 | the stored interval is stopped, then the game advances as `AfterTurn` says; a missing or unstarted game is ignored |
| Server.GameServer.NextWord | server/index.ts:596-610 | with words left in the category, a pool word is shown; otherwise the turn ends as `EndTurn` says |
| Server.GameServer.WordGuessed | server/index.ts:582-623 | only the active team's raw socket id passes; then `Guessed` and `NextWord`; otherwise nothing changes |
| Server.GameServer.WordSkipped | server/index.ts:626-665 | only the active team's raw socket id passes; then `Skipped` and `NextWord`; otherwise nothing changes |
| Server.GameServer.EndTurnRequest | server/index.ts:686-709 | only the active team's raw socket id passes; then the game advances as `AfterTurn` says, and the intervals are left running |
| Server.GameServer.Tick | server/index.ts:493-507 | a cleared interval changes nothing; a missing or unstarted game clears the interval; with time left, exactly one second is taken off; otherwise the stored interval stops and the turn ends |
| Store.Merge | src/store/index.ts:89-91 | each key present in the patch is overwritten, and every absent key is kept |
| Store.MergeNoChange | src/store/index.ts:89-91 | an empty patch changes nothing |
| Store.MergeIdempotent | src/store/index.ts:89-91 | applying a patch twice is the same as applying it once |
| Store.MergeThen | src/store/index.ts:89-91 | two patches in a row equal one patch in which the later keys win |
| Store.MergeFull | src/store/index.ts:89-91 | a patch with every key replaces the settings |
| Store.GameStore.constructor | src/store/index.ts:51-67 | the store starts at `initialState` |
| Store.GameStore.SetGameCode | src/store/index.ts:74-76 | only `gameCode` changes |
| Store.GameStore.SetTeams | src/store/index.ts:77-79 | only `teams` changes |
| Store.GameStore.SetIsHost | src/store/index.ts:80-82 | only `isHost` changes |
| Store.GameStore.SetIsPlaying | src/store/index.ts:83-85 | only `isPlaying` changes |
| Store.GameStore.ResetGame | src/store/index.ts:86-88 | every field returns to `initialState` |
| Store.GameStore.UpdateSettings | src/store/index.ts:89-91 | only the settings change, to `Merge` of the old settings and the patch |
| Store.GameStore.SetCurrentGame | src/store/index.ts:92-94 | only `currentGame` changes |
| Store.GameStore.UpdateTimeRemaining | src/store/index.ts:95-99 | a no-op without a game; otherwise only `timeRemaining` changes |
| Store.GameStore.UpdateScore | src/store/index.ts:100-104 | a no-op without a game; otherwise the team reads the new score, every other team's score is unchanged, keys stay distinct, and nothing else changes |
| Store.GameStore.AddGuessedWord | src/store/index.ts:105-110 | a no-op without a game; otherwise the word is appended to `guessed` and added to `usedWords`, and `skipped` is kept |
| Store.GameStore.AddSkippedWord | src/store/index.ts:111-116 | a no-op without a game; otherwise the word is appended to `skipped` and added to `usedWords`, and `guessed` is kept |

## Left out

- **Transport.** Express, the HTTP server, CORS, `socket.join` and every `emit` are left out. Outcomes stand in for the messages sent back to the requester; broadcasts are not recorded.
- **Logging and read-only resends.** `console.log`, `logGameState`, the state resends of `get-game-state` and `join-room`, and the self-echo `join-game` handler carry no state change. `join-room` is modelled only for its write to `socketToGameMap`.
- **Unused helpers.** No handler calls the `startTurn` and `startTimer` helpers (server/index.ts:856-898, 999-1031). The `setupSocketServer` stub is empty.
- **Real time and concurrency.** Wall-clock timing and interleaving are out. Each tick is one explicit call, and each handler runs to completion.
- **Random distributions.** Only the chosen index is modelled. Session.Pick and Random.PickIndex say nothing about uniformity.
- **Words.ShuffleWords**: does not model the order that a random comparator produces inside the engine's sort. Each draw instead picks the next element; the contract states only the permutation.
- **The corpus.** `words.json` is an input sequence.
- **Extra settings fields.** The host may send fields (such as the team settings) that the server copies but never reads. They are not kept.
- **Session.LowerAsciiSpec**: lower-casing covers the ASCII letters only. It does not cover the rest of Unicode.
- **Scores.Set**: does not model integer-like keys, which JavaScript objects order before other keys. Team ids are socket ids, which are not integer-like.
- **Undefined values in a patch.** `updateSettings` spreading a key whose value is `undefined` would overwrite with `undefined`. `Store.Merge` treats an absent key and an `undefined` one alike.
- **After a Fault.** An exception no handler catches may stop the process. The model keeps the state as it was at the throw and goes on.
- **Intervals and codes.** An interval left running by `end-turn` or by a repeated `start-game` looks its game up by code. After that game ends, a new game under the same code could be reached by it. `Tick` models this lookup too, but no property is stated about it.
- **Server.GameServer.IdentifyTeam**: when the active index names no team, the source throws after the binding and only logs the error. The model returns `Done` with no word.
