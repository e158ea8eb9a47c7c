/**
 * One server's playback session (`VoiceState`) and its queued requests
 * (`VoiceEntry`). The playback task `audio_player_task` is modelled as its
 * two discrete steps, StartNext and FinishCurrent; the commands of `Music`
 * that act on a session (skip, keep, unvote, pause, resume, playing,
 * removesong) are methods of the session they obtained by `get_voice_state`.
 */
module Voice {
  import opened Wrappers
  import opened Votes
  import Timing

  /**
   * A queued request. The audio player belongs to the entry; `playerDone`
   * is its `is_done()`. Entries are objects, so `current` and the head of
   * the playlist are the same entry, as in Python.
   */
  class VoiceEntry {
    const requester: UserId
    const title: string
    const duration: Option<int>
    var playerDone: bool

    constructor (requester: UserId, title: string, duration: Option<int>)
      ensures this.requester == requester && this.title == title && this.duration == duration
      ensures !playerDone
    {
      this.requester := requester;
      this.title := title;
      this.duration := duration;
      playerDone := false;
    }

    /** `player.stop()`: the player reports done from now on. */
    method StopPlayer()
      modifies this
      ensures playerDone
    {
      playerDone := true;
    }
  }

  /** What `removesong` does with a 1-based position. */
  datatype RemoveOutcome = InvalidIndex | CannotRemoveCurrent | Removed

  /**
   * `removesong` after the permission check: `idx - 1` out of range is
   * refused, position 1 (the head, which the playback task is playing) is
   * refused, anything else is deleted and the rest keep their order.
   */
  function RemoveAtPosition<T>(playlist: seq<T>, position: int): (r: (RemoveOutcome, seq<T>))
    ensures r.0 == InvalidIndex <==> !(1 <= position <= |playlist|)
    ensures r.0 == CannotRemoveCurrent <==> position == 1 && |playlist| >= 1
    ensures r.0 != Removed ==> r.1 == playlist
    ensures r.0 == Removed ==> |r.1| == |playlist| - 1
    ensures r.0 == Removed ==> forall j :: 0 <= j < position - 1 ==> r.1[j] == playlist[j]
    ensures r.0 == Removed ==> forall j :: position - 1 <= j < |r.1| ==> r.1[j] == playlist[j + 1]
  {
    var k := position - 1;
    if k < 0 || k >= |playlist| then (InvalidIndex, playlist)
    else if k == 0 then (CannotRemoveCurrent, playlist)
    else (Removed, playlist[..k] + playlist[k + 1..])
  }

  /** What a `skip`, `keep` or `unvote` command reports. */
  datatype VoteOutcome =
    | NotPlaying
    | Tallied(hadVote: bool, skips: nat, keeps: nat, skipped: bool)

  class VoiceState {
    var current: VoiceEntry?
    /** `voice is not None`: a voice connection is attached. */
    var connected: bool
    var playlist: seq<VoiceEntry>
    var votes: seq<Vote>
    /** Seconds; `start_time` of the running segment. */
    var startTime: int
    /** Seconds; `total_playing_time` accumulated by pauses. */
    var totalPlayingTime: int
    var isPaused: bool
    /** The playback task is suspended until the current player completes. */
    ghost var awaitingFinish: bool
    /** The playback task was cancelled by `stop`. */
    ghost var cancelled: bool

    /**
     * While the playback task waits for the current track, that track is
     * still the head of the playlist (nothing but the task removes it).
     */
    ghost predicate Valid()
      reads this
    {
      awaitingFinish ==> current != null && |playlist| > 0 && playlist[0] == current
    }

    /** The state `VoiceState.__init__` creates at time `now`. */
    ghost predicate Initial(now: int)
      reads this
    {
      && current == null && !connected && playlist == [] && votes == []
      && startTime == now && totalPlayingTime == 0 && !isPaused
      && !awaitingFinish && !cancelled
    }

    constructor (now: int)
      ensures Valid() && Initial(now)
    {
      current := null;
      connected := false;
      playlist := [];
      votes := [];
      startTime := now;
      totalPlayingTime := 0;
      isPaused := false;
      awaitingFinish := false;
      cancelled := false;
    }

    /** `is_playing()`: a voice connection, a current entry, and its player not done. */
    predicate IsPlaying()
      reads this, current
    {
      connected && current != null && !current.playerDone
    }

    /** The objects a command on this session may change. */
    ghost function Footprint(): set<object>
      reads this
    {
      if current == null then {this} else {this, current}
    }

    /** A voice client is stored in the session after `join` or `summon`. */
    method AttachVoice()
      modifies this`connected
      ensures connected
    {
      connected := true;
    }

    /** The new entry is appended to the playlist at the end of `play`. */
    method Enqueue(entry: VoiceEntry)
      requires Valid()
      modifies this`playlist
      ensures Valid()
      ensures playlist == old(playlist) + [entry]
    {
      playlist := playlist + [entry];
    }

    /**
     * One pass of the playback task up to the wait: with an empty playlist
     * it sleeps and changes nothing; otherwise the head becomes current
     * (still in the playlist), its requester gets a 'keep' record appended
     * without any check for an earlier one, `start_time` is reset and the
     * head's player is started, so a connected session is then playing.
     */
    method StartNext(now: int) returns (started: bool)
      requires Valid() && !awaitingFinish && !cancelled
      modifies this`current, this`votes, this`startTime, this`awaitingFinish
      modifies if |playlist| > 0 then {playlist[0]} else {}
      ensures Valid()
      ensures started == (|playlist| > 0)
      ensures !started ==> current == old(current) && votes == old(votes) && startTime == old(startTime) && !awaitingFinish
      ensures started ==> current == playlist[0] && awaitingFinish
      ensures started ==> votes == old(votes) + [Vote(playlist[0].requester, Choice.Keep)]
      ensures started ==> startTime == now
      ensures started ==> current != null && !current.playerDone && (IsPlaying() <==> connected)
    {
      if |playlist| <= 0 {
        return false;
      }
      startTime := now;
      current := playlist[0];
      votes := votes + [Vote(current.requester, Choice.Keep)];
      awaitingFinish := true;
      current.playerDone := false;
      started := true;
    }

    /**
     * The player has finished (to its end or stopped by a skip) and the
     * task deletes the head of the playlist: exactly the current entry leaves the
     * playlist; `current` keeps pointing at it, now done.
     */
    method FinishCurrent()
      requires Valid() && awaitingFinish
      modifies this`playlist, this`awaitingFinish, current
      ensures Valid() && !awaitingFinish
      ensures current != null && old(playlist) == [current] + playlist
      ensures current.playerDone && !IsPlaying()
    {
      current.playerDone := true;
      assert old(playlist) == [playlist[0]] + playlist[1..];
      playlist := playlist[1..];
      awaitingFinish := false;
    }

    /** `skip()`: drops every vote, and stops the player only if it is playing. */
    method Skip()
      modifies this`votes, current
      ensures votes == []
      ensures current != null ==> current.playerDone == (old(current.playerDone) || old(IsPlaying()))
      ensures !IsPlaying()
    {
      votes := [];
      if IsPlaying() {
        current.StopPlayer();
      }
    }

    /** `_vote_stats`: the loop that adds each voter's XP to the side they voted for. */
    method VoteStats(xp: UserId -> nat) returns (skips: nat, keeps: nat)
      ensures skips == SkipScore(votes, xp) && keeps == KeepScore(votes, xp)
    {
      skips, keeps := 0, 0;
      var i := 0;
      while i < |votes|
        invariant 0 <= i <= |votes|
        invariant skips == SkipScore(votes[..i], xp) && keeps == KeepScore(votes[..i], xp)
      {
        assert votes[..i + 1][..i] == votes[..i];
        if votes[i].value == Choice.Skip {
          skips := skips + xp(votes[i].user);
        } else {
          keeps := keeps + xp(votes[i].user);
        }
        i := i + 1;
      }
      assert votes[..i] == votes;
    }

    /**
     * The `skip` command: nothing unless playing; otherwise the vote is cast,
     * tallied, and when skips reach keeps the session skips.
     */
    method VoteSkip(voter: UserId, xp: UserId -> nat) returns (r: VoteOutcome)
      modifies this`votes, current
      ensures !old(IsPlaying()) ==> r == NotPlaying && votes == old(votes)
      ensures old(IsPlaying()) ==>
        var cast := Cast(old(votes), voter, Choice.Skip);
        && r == Tallied(voter in Voters(old(votes)), SkipScore(cast, xp), KeepScore(cast, xp), SkipWins(cast, xp))
        && votes == (if SkipWins(cast, xp) then [] else cast)
      ensures current != null ==> current.playerDone == (old(current.playerDone) || (r.Tallied? && r.skipped))
    {
      if !IsPlaying() {
        return NotPlaying;
      }
      var hadVote := FindVote(voter, votes).Some?;
      votes := Cast(votes, voter, Choice.Skip);
      var skips, keeps := VoteStats(xp);
      if skips >= keeps {
        Skip();
      }
      r := Tallied(hadVote, skips, keeps, skips >= keeps);
    }

    /** The `keep` command: like `skip`, but the tally never leads to a skip. */
    method VoteKeep(voter: UserId, xp: UserId -> nat) returns (r: VoteOutcome)
      modifies this`votes
      ensures !old(IsPlaying()) ==> r == NotPlaying && votes == old(votes)
      ensures old(IsPlaying()) ==>
        var cast := Cast(old(votes), voter, Choice.Keep);
        r == Tallied(voter in Voters(old(votes)), SkipScore(cast, xp), KeepScore(cast, xp), false) && votes == cast
    {
      if !IsPlaying() {
        return NotPlaying;
      }
      var hadVote := FindVote(voter, votes).Some?;
      votes := Cast(votes, voter, Choice.Keep);
      var skips, keeps := VoteStats(xp);
      r := Tallied(hadVote, skips, keeps, false);
    }

    /**
     * The `unvote` command: when the voter has a record the list is walked
     * as Python's `for ... remove` does; then the same tally decides, so
     * an emptied list (0 >= 0) skips.
     */
    method Unvote(voter: UserId, xp: UserId -> nat) returns (r: VoteOutcome)
      modifies this`votes, current
      ensures !old(IsPlaying()) ==> r == NotPlaying && votes == old(votes)
      ensures old(IsPlaying()) ==>
        var left := Unvoted(old(votes), voter);
        && r == Tallied(voter in Voters(old(votes)), SkipScore(left, xp), KeepScore(left, xp), SkipWins(left, xp))
        && votes == (if SkipWins(left, xp) then [] else left)
      ensures current != null ==> current.playerDone == (old(current.playerDone) || (r.Tallied? && r.skipped))
    {
      if !IsPlaying() {
        return NotPlaying;
      }
      var hadVote := FindVote(voter, votes).Some?;
      if hadVote {
        var i := 0;
        while i < |votes|
          invariant 0 <= i <= |votes| + 1
          invariant UnvoteWalk(votes, voter, i) == Unvoted(old(votes), voter)
          decreases |votes| - i
          modifies this`votes
        {
          if votes[i].user == voter {
            votes := RemoveFirst(votes, votes[i]);
          }
          i := i + 1;
        }
      } else {
        UnvoteWithoutRecord(votes, voter);
      }
      var skips, keeps := VoteStats(xp);
      if skips >= keeps {
        Skip();
      }
      r := Tallied(hadVote, skips, keeps, skips >= keeps);
    }

    /** `pause`: while playing, the running segment is added to the total. */
    method Pause(now: int) returns (applied: bool)
      modifies this`totalPlayingTime, this`isPaused
      ensures applied == IsPlaying()
      ensures applied ==> totalPlayingTime == old(totalPlayingTime) + (now - startTime) && isPaused
      ensures !applied ==> totalPlayingTime == old(totalPlayingTime) && isPaused == old(isPaused)
    {
      applied := IsPlaying();
      if applied {
        totalPlayingTime := totalPlayingTime + (now - startTime);
        isPaused := true;
      }
    }

    /** `resume`: while playing, a new segment starts now. */
    method Resume(now: int) returns (applied: bool)
      modifies this`startTime, this`isPaused
      ensures applied == IsPlaying()
      ensures applied ==> startTime == now && !isPaused
      ensures !applied ==> startTime == old(startTime) && isPaused == old(isPaused)
    {
      applied := IsPlaying();
      if applied {
        startTime := now;
        isPaused := false;
      }
    }

    /** The elapsed seconds `playing` shows: the total, plus the running segment unless paused. */
    function ElapsedAt(now: int): int
      reads this
    {
      if isPaused then totalPlayingTime else totalPlayingTime + (now - startTime)
    }

    /** The `playing` command: nothing unless playing, else the elapsed time as `[hh:mm:ss]`. */
    function Playing(now: int): (r: Option<Timing.Clock>)
      reads this, current
      ensures r.Some? <==> IsPlaying()
      ensures r.Some? ==> Timing.Normal(r.value) && Timing.TotalSeconds(r.value) == ElapsedAt(now)
    {
      if IsPlaying() then Some(Timing.Breakdown(ElapsedAt(now))) else None
    }

    /** `removesong` after its permission and `None` checks, with the 1-based `idx`. */
    method RemoveSong(position: int) returns (r: RemoveOutcome)
      requires Valid()
      modifies this`playlist
      ensures Valid()
      ensures (r, playlist) == RemoveAtPosition(old(playlist), position)
    {
      var outcome := RemoveAtPosition(playlist, position);
      r, playlist := outcome.0, outcome.1;
    }

    /**
     * The session side of `stop`: the player is stopped if it is playing,
     * the playback task is cancelled and the playlist is emptied.
     */
    method Teardown()
      modifies this`playlist, this`awaitingFinish, this`cancelled, current
      ensures Valid() && playlist == [] && !awaitingFinish && cancelled
      ensures current != null ==> current.playerDone == (old(current.playerDone) || old(IsPlaying()))
    {
      if IsPlaying() {
        current.StopPlayer();
      }
      awaitingFinish, cancelled := false, true;
      playlist := [];
    }
  }
}
