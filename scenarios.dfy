/**
 * Short runs of a session through its contracts alone, the way the bot's
 * commands and its playback task drive it.
 */
module Scenarios {
  import opened Wrappers
  import opened Votes
  import opened Voice
  import opened Music

  /**
   * An idle connected session: a request is queued, the playback task picks
   * it up, a skip with no other votes stops it, the task removes it, and the
   * next pass finds nothing to play.
   */
  method EnqueueStartSkipFinish(requester: UserId, t0: int, t1: int)
    returns (playingAfterStart: bool, playingAfterSkip: bool, queued: nat, restarted: bool)
    ensures playingAfterStart && !playingAfterSkip && queued == 0 && !restarted
  {
    var state := new VoiceState(t0);
    state.AttachVoice();
    var a := new VoiceEntry(requester, "A", None);
    state.Enqueue(a);
    var started := state.StartNext(t1);
    assert started && state.current == a;
    playingAfterStart := state.IsPlaying();
    state.Skip();
    playingAfterSkip := state.IsPlaying();
    state.FinishCurrent();
    queued := |state.playlist|;
    restarted := state.StartNext(t1);
  }

  /**
   * Weights alice 5, bob 3, requester carol 0: alice's skip vote already
   * outweighs the requester's automatic keep, so the track is skipped on her
   * vote alone and bob never gets to vote on it.
   */
  method FirstQualifyingVoteSkips(alice: UserId, bob: UserId, carol: UserId, xp: UserId -> nat, now: int)
    returns (r: VoteOutcome, playing: bool, left: seq<Vote>)
    requires alice != bob && alice != carol && bob != carol
    requires xp(alice) == 5 && xp(bob) == 3 && xp(carol) == 0
    ensures r == Tallied(false, 5, 0, true) && !playing && left == []
  {
    var state := new VoiceState(now);
    state.AttachVoice();
    var a := new VoiceEntry(carol, "A", Some(200));
    state.Enqueue(a);
    var started := state.StartNext(now);
    var before := [Vote(carol, Keep)];
    assert state.votes == before;
    assert alice !in Voters(before);
    ScoresAppend([], Vote(carol, Keep), xp);
    ScoresAppend(before, Vote(alice, Choice.Skip), xp);
    r := state.VoteSkip(alice, xp);
    playing := state.IsPlaying();
    left := state.votes;
  }

  /**
   * A connected session that is not waiting on a track (a fresh one, or one
   * whose last track has finished): queueing a request and running the
   * playback task makes it play.
   */
  method EnqueueIntoIdleSessionPlays(state: VoiceState, entry: VoiceEntry, now: int) returns (playing: bool)
    requires state.Valid() && !state.awaitingFinish && !state.cancelled && state.connected
    modifies state, if |state.playlist| > 0 then {state.playlist[0]} else {entry}
    ensures playing
  {
    state.Enqueue(entry);
    var started := state.StartNext(now);
    playing := state.IsPlaying();
  }

  /**
   * An `unvote` by a member without a record still runs the tally: with only
   * the 0-XP requester's 'keep' on the list, 0 >= 0 and the track is skipped.
   */
  method UnvoteWithoutRecordSkips(carol: UserId, dave: UserId, xp: UserId -> nat, now: int)
    returns (r: VoteOutcome, playing: bool, left: seq<Vote>)
    requires carol != dave && xp(carol) == 0
    ensures r == Tallied(false, 0, 0, true) && !playing && left == []
  {
    var state := new VoiceState(now);
    state.AttachVoice();
    var a := new VoiceEntry(carol, "A", None);
    state.Enqueue(a);
    var started := state.StartNext(now);
    var before := [Vote(carol, Keep)];
    assert state.votes == before;
    assert dave !in Voters(before);
    UnvoteWithoutRecord(before, dave);
    ScoresAppend([], Vote(carol, Keep), xp);
    assert SkipScore(before, xp) == 0 && KeepScore(before, xp) == 0;
    assert state.IsPlaying();
    r := state.Unvote(dave, xp);
    assert r == Tallied(false, 0, 0, true);
    playing := state.IsPlaying();
    left := state.votes;
  }

  /** Paused time is not counted: a pause at t1 and a resume at t2 leave t1 - t0 + t3 - t2 at t3. */
  method PauseThenResume(t0: int, t1: int, t2: int, t3: int) returns (shown: int)
    requires t0 <= t1 <= t2 <= t3
    ensures shown == (t1 - t0) + (t3 - t2)
  {
    var state := new VoiceState(t0);
    state.AttachVoice();
    var a := new VoiceEntry(0, "A", None);
    state.Enqueue(a);
    var started := state.StartNext(t0);
    var paused := state.Pause(t1);
    var resumed := state.Resume(t2);
    shown := state.ElapsedAt(t3);
  }

  /**
   * `pause` does not look at `is_paused`: a second pause at t2 adds the
   * whole span since the last start again, paused time included.
   */
  method PauseTwice(t0: int, t1: int, t2: int, t3: int) returns (shown: int)
    requires t0 <= t1 <= t2 <= t3
    ensures shown == (t1 - t0) + (t2 - t0)
  {
    var state := new VoiceState(t0);
    state.AttachVoice();
    var a := new VoiceEntry(0, "A", None);
    state.Enqueue(a);
    var started := state.StartNext(t0);
    var first := state.Pause(t1);
    var second := state.Pause(t2);
    shown := state.ElapsedAt(t3);
  }

  /**
   * `removesong` on a three-entry playlist: position 1 is refused, position
   * 2 deletes the second entry, leaving the first and the third in order.
   */
  method RemoveSecondOfThree(t0: int) returns (atOne: RemoveOutcome, atTwo: RemoveOutcome, titles: seq<string>)
    ensures atOne == CannotRemoveCurrent && atTwo == Removed && titles == ["A", "C"]
  {
    var state := new VoiceState(t0);
    var a := new VoiceEntry(0, "A", None);
    var b := new VoiceEntry(0, "B", None);
    var c := new VoiceEntry(0, "C", None);
    state.Enqueue(a);
    state.Enqueue(b);
    state.Enqueue(c);
    atOne := state.RemoveSong(1);
    atTwo := state.RemoveSong(2);
    assert state.playlist == [a, c];
    titles := [state.playlist[0].title, state.playlist[1].title];
  }

  /**
   * The registry: asking twice for one server gives one session, and an
   * administrator's `stop` removes it when the stop role setting is "".
   */
  method RegistryGetOrCreate(server: ServerId, now: int) returns (same: bool, stopped: bool, registered: bool)
    ensures same && stopped && !registered
  {
    var music := new Music();
    var first := music.GetVoiceState(server, now);
    var second := music.GetVoiceState(server, now);
    same := first == second;
    stopped := music.Stop(server, now, Some(""), true, []);
    registered := server in music.voiceStates;
  }
}
