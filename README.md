# Music-queue session of the CorpBot music cog, in Dafny

This project models the per-server playback and voting state machine of the
`Music` cog in `Cogs/Example.py`: the session object `VoiceState` with its
playlist, vote list, current entry, pause flag and playing-time bookkeeping;
the two steps of its playback task (take the head of the playlist and start
it; remove it when its player reports completion); the vote commands `skip`,
`keep` and `unvote` with the weighted tally of `_vote_stats` and the rule
"skip when total skips >= total keeps"; `pause`, `resume` and the elapsed time
shown by `playing`; `removesong` with its 1-based index; the registry of
sessions keyed by server id (`get_voice_state`, and `stop`, which removes the
entry); the role check guarding `stop` and `removesong`; the volume clamp;
the `divmod` in `VoiceEntry.__str__`; and the `NdN` argument check of `roll`.

Files and modules:

- `wrappers.dfy` (`Wrappers`): `Option`, for Python's `None`.
- `votes.dfy` (`Votes`): vote records, `has_voted` (`FindVote`), casting a vote
  (`Cast`), the tally (`SkipScore`, `KeepScore`, `SkipWins`), and `unvote`'s
  walk over the list (`UnvoteWalk`, `Unvoted`), with their lemmas.
- `timing.dfy` (`Timing`): the `[hh:mm:ss]` breakdown and the `divmod(duration, 60)`.
- `dice.dfy` (`Dice`): `str.split('d')`, decimal parsing and the `roll` check.
- `voice.dfy` (`Voice`): the classes `VoiceEntry` and `VoiceState`; every
  command that acts on a session is a method of the session.
- `music.dfy` (`Music`): the class `Music` holding the registry, the
  permission check, `stop`, `removesong` and the volume clamp.
- `scenarios.dfy` (`Scenarios`): client methods that run a session through
  the contracts above (the queue-start-skip-finish run, a first qualifying
  skip vote, pause and resume, a double pause, removing the second of three
  entries, the registry).

How the source maps onto the model:

- Entries are objects (`VoiceEntry`), so `current` and `playlist[0]` are the
  same entry, as in Python. An entry's `playerDone` is its player's
  `is_done()`; `player.stop()` sets it (`StopPlayer`), and the completion that
  wakes the playback task is `FinishCurrent`, which leaves it set.
- `is_playing()` is `VoiceState.IsPlaying`: a voice connection (`connected`),
  a current entry, and its player not done.
- Each command first calls `get_voice_state`; that step is
  `Music.GetVoiceState`, and the rest of the command is the `VoiceState`
  method on the session it returns. `stop` and `removesong`, which check
  permissions and touch the registry, are methods of `Music`.
- The playback task `audio_player_task` is two steps: `StartNext` (lines
  103-114, an empty playlist means a pass that only sleeps) and
  `FinishCurrent` (line 116). A ghost flag `awaitingFinish` says the task is
  suspended on the completion event; `VoiceState.Valid()` states that the
  entry being waited for is then still the head of the playlist, and every
  method keeps that, so `FinishCurrent` removes exactly the entry that was
  started. `stop` cancels the task (ghost flag `cancelled`).
- Time is integer seconds supplied by the caller as `now`.
- The XP lookup of `_vote_stats` is a parameter `xp: UserId -> nat`; a
  member without XP counts 0 (Python would raise on `None`).
- The `RequiredStopRole` setting is a parameter `Option<string>` (`None`
  when unset); the member's administrator flag and role ids are parameters.

Behaviours of the code that the model keeps, though a reader might expect
otherwise:

- Votes are not cleared when a track starts; only `skip()` clears them, and
  the playback task appends the requester's `'keep'` record without looking
  for an earlier record, so a voter can hold two records.
- `unvote` deletes while iterating, so of two identical adjacent records of
  one voter only the first is deleted (`Votes.UnvoteLeavesAdjacentDuplicate`).
  Everybody else's records always survive in order.
- `removesong` refuses position 1 whenever the playlist is non-empty, whether
  or not anything is playing; it never reports "invalid" for position 1 on a
  non-empty playlist.
- `pause` and `resume` are guarded by `is_playing()` only, not by the pause
  flag: pausing twice adds the time since the last start twice
  (`Scenarios.PauseTwice`), and resuming an unpaused track drops the running
  segment.
- `StartNext` resets only `start_time` (and starts the head's player): the
  pause flag and `total_playing_time` carry over from the previous track.
- `unvote` by a member without a record still runs the tally and skips when
  skips >= keeps: with only a 0-XP requester's 'keep' on the list, it skips the
  track (`Scenarios.UnvoteWithoutRecordSkips`).
- `current` is not cleared when a track finishes; it keeps pointing at the
  finished entry, whose player is done, so `is_playing()` is false.
- With the stop-role setting absent (`None`), nobody passes the check, not
  even an administrator; only the empty string means "administrators only".

## Model

| member | source | states |
|---|---|---|
| `Votes.FindVote` | Cogs/Example.py:407-413 | the index of the first record of the user, no earlier record is theirs; None exactly when the user has no record |
| `Votes.Cast` | Cogs/Example.py:315-319 | the set of voters gains the voter and nobody else; an existing voter keeps the list length and the slot of their first record becomes their record with the new choice; a new voter gets one record appended; every other record is untouched |
| `Votes.CastScores` | Cogs/Example.py:354-358 | casting moves the voter's XP from the side their first record counted for to the new choice, so a voter is never counted twice by voting again |
| `Votes.CastSkipFavoursSkipping` | Cogs/Example.py:315-323 | a skip vote never lowers total skips nor raises total keeps, so it never turns a skip decision into keep |
| `Votes.SkipScore` | Cogs/Example.py:396-401 | `total_skips` is 0 when every record is a keep vote |
| `Votes.KeepScore` | Cogs/Example.py:396-401 | `total_keeps` is 0 when every record is a skip vote |
| `Votes.SkipWins` | Cogs/Example.py:323 | the skip decision of `skip` and `unvote` (also line 383): total skips at least total keeps, ties skipping |
| `Votes.ScoresPartitionWeight` | Cogs/Example.py:392-405 | every record's XP is counted on exactly one side: skips plus keeps is the XP of all records |
| `Votes.ScoresUpdate` | Cogs/Example.py:317 | overwriting one record changes each total by that record's old and new weights only |
| `Votes.ScoresAppend` | Cogs/Example.py:319 | appending a record adds its weight to its side of the tally |
| `Votes.RemoveFirst` | Cogs/Example.py:377 | `list.remove` shortens the list by one when the record is present, taking out exactly one copy of it (as multisets); the absent case, where Python raises ValueError, never arises at this line, since the record just iterated is always present |
| `Votes.RemoveFirstAt` | Cogs/Example.py:377 | `list.remove` deletes the first equal record and keeps the rest in order |
| `Votes.UnvoteWalk` | Cogs/Example.py:374-377 | the walk never lengthens the list and only deletes: what is left is a sub-multiset of the records |
| `Votes.Unvoted` | Cogs/Example.py:374-377 | the vote list after `unvote`'s walk started at index 0 |
| `Votes.UnvoteShrinks` | Cogs/Example.py:372-377 | a voter with a record loses at least one record to `unvote` |
| `Votes.UnvoteKeepsOthers` | Cogs/Example.py:372-377 | whatever the walk deletes, the records of every other voter remain, in their original order |
| `Votes.UnvoteWithoutRecord` | Cogs/Example.py:372-379 | the walk of `unvote` leaves the list unchanged for a member without a record (the tally that follows may still skip) |
| `Votes.UnvoteSingleRecord` | Cogs/Example.py:372-377 | with one record of the voter, exactly that record is deleted and the voter has none left |
| `Votes.UnvoteLeavesAdjacentDuplicate` | Cogs/Example.py:374-377 | two identical adjacent records of a voter: one survives `unvote` |
| `Timing.Breakdown` | Cogs/Example.py:429-432 | hours, minutes and seconds with minutes and seconds below 60 that add up to the elapsed seconds |
| `Timing.BreakdownOfTotal` | Cogs/Example.py:429-432 | the breakdown is unique: any normal reading is the breakdown of its own total |
| `Timing.LengthParts` | Cogs/Example.py:64-66 | no length part for a None or 0 duration; otherwise minutes*60 + seconds is the duration with seconds below 60 |
| `Dice.Split` | Cogs/Example.py:32 | `split('d')` always gives at least one part |
| `Dice.SplitCount` | Cogs/Example.py:32 | `split('d')` gives one more part than there are 'd's |
| `Dice.SplitPartsFree` | Cogs/Example.py:32 | no part of the split holds the separator |
| `Dice.SplitJoin` | Cogs/Example.py:32 | joining the parts with the separator gives the input back |
| `Dice.ParseDecimal` | Cogs/Example.py:32 | the `int()` of one part: a value exactly for a non-empty string of decimal digits, None otherwise |
| `Dice.ParseShowDecimal` | Cogs/Example.py:32 | parsing the decimal digits of a number gives the number |
| `Dice.SplitAround` | Cogs/Example.py:32 | splitting `a` + 'd' + `b` gives exactly `a` and `b` when neither holds a 'd' |
| `Dice.ParseRoll` | Cogs/Example.py:31-35 | an accepted argument holds exactly one 'd' |
| `Dice.ParseRollSides` | Cogs/Example.py:32 | an accepted argument is two decimal strings around one 'd' whose values are the request's rolls and limit |
| `Dice.ParseRollOfSides` | Cogs/Example.py:32 | any two decimal strings around a 'd', leading zeros included, are accepted with their values |
| `Dice.ParseRollShown` | Cogs/Example.py:32 | every `NdN` written with decimal numbers parses back to those two numbers |
| `Dice.ParseRollNeedsBothSides` | Cogs/Example.py:32 | an argument with an empty side of the 'd' is refused |
| `Voice.RemoveAtPosition` | Cogs/Example.py:483-493 | out-of-range positions are refused unchanged; position 1 is refused unchanged; otherwise exactly the entry at position-1 is gone and the others keep their order |
| `Voice.VoiceEntry.constructor` | Cogs/Example.py:56-60 | a new entry records its requester and its player is not done |
| `Voice.VoiceEntry.StopPlayer` | Cogs/Example.py:96 | after `player.stop()` the player is done |
| `Voice.VoiceState.constructor` | Cogs/Example.py:70-80 | a new session: nothing current, no voice, empty playlist and votes, zero playing time, not paused |
| `Voice.VoiceState.IsPlaying` | Cogs/Example.py:82-87 | playing exactly when there is a voice connection and a current entry whose player is not done |
| `Voice.VoiceState.AttachVoice` | Cogs/Example.py:139 | the session has a voice connection; nothing else changes |
| `Voice.VoiceState.Enqueue` | Cogs/Example.py:221 | the entry is appended at the tail; nothing else changes |
| `Voice.VoiceState.StartNext` | Cogs/Example.py:103-114 | empty playlist: nothing changes; otherwise the head becomes current without leaving the playlist, the requester's 'keep' record is appended, the start time is reset and the head's player is started, so the session is playing exactly when it has a voice connection |
| `Voice.VoiceState.FinishCurrent` | Cogs/Example.py:115-116 | exactly the current entry (the head) leaves the playlist, its player is done and the session is no longer playing |
| `Voice.VoiceState.Skip` | Cogs/Example.py:93-96 | votes are emptied; the player is stopped only if it was playing; afterwards nothing is playing |
| `Voice.VoiceState.VoteStats` | Cogs/Example.py:392-405 | the returned totals are the XP sums of the skip records and of all other records |
| `Voice.VoiceState.VoteSkip` | Cogs/Example.py:305-325 | not playing: nothing changes; otherwise the vote is cast, the totals of the new list are reported, and the session skips (votes emptied, player stopped) exactly when skips >= keeps |
| `Voice.VoiceState.VoteKeep` | Cogs/Example.py:345-360 | not playing: nothing changes; otherwise the vote is cast and tallied and the player is never stopped |
| `Voice.VoiceState.Unvote` | Cogs/Example.py:363-385 | not playing: nothing changes; otherwise the walk deletes the voter's records, the tally of what is left decides, and an emptied list skips |
| `Voice.VoiceState.Pause` | Cogs/Example.py:238-246 | while playing, the running segment is added to the playing time and the pause flag is set; otherwise nothing changes |
| `Voice.VoiceState.Resume` | Cogs/Example.py:248-256 | while playing, the start time becomes now and the pause flag is cleared; otherwise nothing changes |
| `Voice.VoiceState.ElapsedAt` | Cogs/Example.py:424-427 | the elapsed seconds: the stored playing time, plus the running segment since the start time unless paused |
| `Voice.VoiceState.Playing` | Cogs/Example.py:416-433 | a reading exactly when playing; its hours, minutes and seconds add up to the total time, plus the running segment unless paused |
| `Voice.VoiceState.RemoveSong` | Cogs/Example.py:483-493 | the reply and the new playlist are those of the position rules; the head the playback task waits on is never removed |
| `Voice.VoiceState.Teardown` | Cogs/Example.py:293-300 | the player is stopped if playing, the playback task is cancelled and the playlist is empty |
| `Music.ClampVolume` | Cogs/Example.py:230-233 | the volume lies in 0..100 and is the requested value when that is in range, else the nearer bound |
| `Music.Permitted` | Cogs/Example.py:271-286 | with the setting "" only administrators pass; with any other setting members holding a role with that id; with no setting nobody |
| `Music.CheckPermission` | Cogs/Example.py:271-286 | granted exactly when: setting "" and administrator, or a setting other than "" that equals a role id; no setting grants nothing |
| `Music.Music.constructor` | Cogs/Example.py:123-126 | the registry starts empty |
| `Music.Music.GetVoiceState` | Cogs/Example.py:128-134 | a registered session is returned and the registry is unchanged; otherwise a new session is registered for that server and returned |
| `Music.Music.Stop` | Cogs/Example.py:259-303 | refused exactly when the check fails, leaving everything unchanged; otherwise the server's session is gone from the registry, its playlist is empty and its player stopped if it was playing |
| `Music.Music.RemoveSong` | Cogs/Example.py:453-493 | refused without permission; no index removes nothing; otherwise the server's session (created if missing) applies the position rules; of an existing session only the playlist may change |
| `Scenarios.EnqueueStartSkipFinish` | Cogs/Example.py:93-116 | a queued entry starts playing, a skip stops it, the task removes it and the next pass finds nothing |
| `Scenarios.FirstQualifyingVoteSkips` | Cogs/Example.py:315-325 | with weights 5, 3 and a requester of weight 0, the first skip vote wins 5 to 0 and skips at once |
| `Scenarios.EnqueueIntoIdleSessionPlays` | Cogs/Example.py:103-114 | any connected session not waiting on a track plays once a request is queued and the task runs |
| `Scenarios.UnvoteWithoutRecordSkips` | Cogs/Example.py:363-385 | an `unvote` without a record, with only a 0-XP requester's keep, reports 0 to 0 and skips |
| `Scenarios.PauseThenResume` | Cogs/Example.py:244-256 | time between a pause and a resume is not counted |
| `Scenarios.PauseTwice` | Cogs/Example.py:244-246 | a second pause counts the span since the last start again |
| `Scenarios.RemoveSecondOfThree` | Cogs/Example.py:483-493 | position 1 is refused, position 2 of three removes the second entry and keeps the others in order |
| `Scenarios.RegistryGetOrCreate` | Cogs/Example.py:128-134 | two lookups for one server give one session, and `stop` removes it |

## Left out

- Chat I/O: every reply and `send_message` text, `join_voice_channel`,
  `move_to`, `disconnect`, the summon step inside `play`, and loading opus;
  these are calls into the chat client with no visible semantics here.
- The audio player: `create_ytdl_player`, `start`, `pause` and `resume` of
  the player itself; only its done flag is modelled.
- asyncio: the task, the `play_next_song` event, `toggle_next`, `sleep`,
  `cancel`; the task is the two steps `StartNext` and `FinishCurrent`.
- Voice.VoiceState.RemoveSong, Music.Music.RemoveSong, Voice.VoiceState.VoteSkip,
  Voice.VoiceState.Unvote, Voice.VoiceState.StartNext: each is modelled as one
  atomic step, but the source awaits in the middle of them (`removesong`
  between its bounds check and the `del`, `skip` and `unvote` between the
  tally and `state.skip()`, the playback task between taking the head and
  starting the player). Interleavings at those awaits are not modelled: if
  the head finishes during `removesong`'s await the list shifts under the
  checked index (IndexError, or a different entry deleted than the one
  reported), and a tally taken for one track can skip the next one.
- `datetime`: times are integer seconds given as `now`; fractions of a
  second and the `round` of the displayed fields are not modelled.
- Floating point: `value / 100` and the volume read from the settings store
  in `play`; only the integer clamp of `volume` is modelled, not the
  assignment to the player nor the `is_playing()` guard around it.
- The settings store: XP, the stop role and the volume are parameters; the
  `setServerStat(..., "Volume", None)` in `stop` is not modelled.
- `VoiceEntry.channel` and the text of `__str__` apart from the duration
  split; the `playlist` command, which only prints.
- `add`, `choose`, `joined`, the random numbers of `roll`, and the helpers
  `Nullify` and `DisplayName`, which are not part of this model.
- Dice.ParseRoll: accepts only non-empty strings of ASCII decimal digits on
  each side, where Python's `int` also takes signs, surrounding whitespace,
  underscores and other Unicode digits.
- `__unload`: only cancellation and disconnects.
