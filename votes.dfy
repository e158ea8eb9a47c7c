/**
 * The vote list of one voice session and the pure computations over it:
 * `Music.has_voted` (first record of a voter), the overwrite-or-append rule
 * used by the `skip` and `keep` commands, the weighted tally of
 * `Music._vote_stats`, and the index walk by which `unvote` deletes records.
 */
module Votes {
  import opened Wrappers

  /** Identity of a chat member (compared by id, as discord members are). */
  type UserId = int

  /** The `value` of a vote record: the string 'skip' or 'keep'. */
  datatype Choice = Skip | Keep

  /** A vote record `{ 'user': ..., 'value': ... }`. */
  datatype Vote = Vote(user: UserId, value: Choice)

  /** Everybody who has at least one record in `votes`. */
  function Voters(votes: seq<Vote>): set<UserId>
  {
    set j | 0 <= j < |votes| :: votes[j].user
  }

  /** The records of everybody except `voter`, in their original order. */
  function Others(votes: seq<Vote>, voter: UserId): (r: seq<Vote>)
    ensures voter !in Voters(r)
  {
    if votes == [] then []
    else if votes[0].user == voter then Others(votes[1..], voter)
    else [votes[0]] + Others(votes[1..], voter)
  }

  // ---------------------------------------------------------------------------
  // has_voted
  // ---------------------------------------------------------------------------

  /**
   * `has_voted`: the position of the first record of `user`, or
   * None when the linear search falls off the end (Python returns False).
   */
  function FindVote(user: UserId, votes: seq<Vote>): (r: Option<nat>)
    ensures r.Some? ==> r.value < |votes| && votes[r.value].user == user
    ensures r.Some? ==> forall j :: 0 <= j < r.value ==> votes[j].user != user
    ensures r.None? <==> user !in Voters(votes)
  {
    if votes == [] then None
    else if votes[0].user == user then Some(0)
    else
      var rest := FindVote(user, votes[1..]);
      assert Voters(votes) == {votes[0].user} + Voters(votes[1..]) by {
        assert forall j :: 0 < j < |votes| ==> votes[j] == votes[1..][j - 1];
      }
      match rest
      case None => None
      case Some(i) => Some(i + 1)
  }

  /** The choice recorded in the voter's first record, the one `has_voted` returns. */
  function ChoiceOf(voter: UserId, votes: seq<Vote>): Option<Choice>
  {
    match FindVote(voter, votes)
    case None => None
    case Some(i) => Some(votes[i].value)
  }

  // ---------------------------------------------------------------------------
  // Casting a vote (skip and keep commands)
  // ---------------------------------------------------------------------------

  /**
   * A `skip` or `keep` vote: the record `has_voted` finds gets its value
   * overwritten in place; a voter without a record gets one appended.
   */
  function Cast(votes: seq<Vote>, voter: UserId, choice: Choice): (r: seq<Vote>)
    ensures Voters(r) == Voters(votes) + {voter}
    ensures voter in Voters(votes) ==> |r| == |votes|
    ensures voter !in Voters(votes) ==> r == votes + [Vote(voter, choice)]
    ensures ChoiceOf(voter, r) == Some(choice)
    ensures FindVote(voter, votes).Some? ==> r[FindVote(voter, votes).value] == Vote(voter, choice)
    ensures forall j :: 0 <= j < |votes| && FindVote(voter, votes) != Some(j) ==> r[j] == votes[j]
  {
    match FindVote(voter, votes)
    case Some(i) =>
      var r := votes[i := votes[i].(value := choice)];
      assert Voters(r) == Voters(votes) by {
        assert forall j :: 0 <= j < |r| ==> r[j].user == votes[j].user;
      }
      assert FindVote(voter, r) == Some(i) by {
        FindVoteAt(voter, r, i);
      }
      r
    case None =>
      var r := votes + [Vote(voter, choice)];
      assert Voters(r) == Voters(votes) + {voter} by {
        assert forall j :: 0 <= j < |votes| ==> r[j] == votes[j];
        assert r[|votes|].user == voter;
      }
      assert FindVote(voter, r) == Some(|votes|) by {
        FindVoteAt(voter, r, |votes|);
      }
      r
  }

  /** The first record of `user` is the one at `i` when no earlier record is theirs. */
  lemma {:induction false} FindVoteAt(user: UserId, votes: seq<Vote>, i: nat)
    requires i < |votes| && votes[i].user == user
    requires forall j :: 0 <= j < i ==> votes[j].user != user
    ensures FindVote(user, votes) == Some(i)
  {
    assert votes[i].user in Voters(votes);
  }

  // ---------------------------------------------------------------------------
  // _vote_stats
  // ---------------------------------------------------------------------------

  /** XP of the voter when the record is a skip vote, else 0. */
  function SkipWeight(v: Vote, xp: UserId -> nat): nat
  {
    if v.value == Skip then xp(v.user) else 0
  }

  /** XP of the voter when the record is not a skip vote, else 0. */
  function KeepWeight(v: Vote, xp: UserId -> nat): nat
  {
    if v.value == Skip then 0 else xp(v.user)
  }

  /** `total_skips`: the XP of every skip record, summed front to back. */
  function SkipScore(votes: seq<Vote>, xp: UserId -> nat): (r: nat)
    ensures (forall j :: 0 <= j < |votes| ==> votes[j].value == Keep) ==> r == 0
  {
    if votes == [] then 0
    else SkipScore(votes[..|votes| - 1], xp) + SkipWeight(votes[|votes| - 1], xp)
  }

  /** `total_keeps`: the XP of every other record, summed front to back. */
  function KeepScore(votes: seq<Vote>, xp: UserId -> nat): (r: nat)
    ensures (forall j :: 0 <= j < |votes| ==> votes[j].value == Skip) ==> r == 0
  {
    if votes == [] then 0
    else KeepScore(votes[..|votes| - 1], xp) + KeepWeight(votes[|votes| - 1], xp)
  }

  /** The XP of every record, whatever its value. */
  function TotalWeight(votes: seq<Vote>, xp: UserId -> nat): nat
  {
    if votes == [] then 0 else xp(votes[0].user) + TotalWeight(votes[1..], xp)
  }

  /** The skip decision: ties go to skipping. */
  predicate SkipWins(votes: seq<Vote>, xp: UserId -> nat)
  {
    SkipScore(votes, xp) >= KeepScore(votes, xp)
  }

  /** Every record is counted exactly once, on one side of the tally. */
  lemma {:induction false} ScoresPartitionWeight(votes: seq<Vote>, xp: UserId -> nat)
    ensures SkipScore(votes, xp) + KeepScore(votes, xp) == TotalWeight(votes, xp)
  {
    if votes != [] {
      var init, last := votes[..|votes| - 1], votes[|votes| - 1];
      ScoresPartitionWeight(init, xp);
      TotalWeightAppend(init, last, xp);
      assert init + [last] == votes;
    }
  }

  lemma {:induction false} TotalWeightAppend(votes: seq<Vote>, v: Vote, xp: UserId -> nat)
    ensures TotalWeight(votes + [v], xp) == TotalWeight(votes, xp) + xp(v.user)
  {
    if votes != [] {
      assert (votes + [v])[1..] == votes[1..] + [v];
      TotalWeightAppend(votes[1..], v, xp);
    }
  }

  /** Overwriting one record changes the tally by that record's weights only. */
  lemma {:induction false} ScoresUpdate(votes: seq<Vote>, i: nat, v: Vote, xp: UserId -> nat)
    requires i < |votes|
    ensures SkipScore(votes[i := v], xp) == SkipScore(votes, xp) - SkipWeight(votes[i], xp) + SkipWeight(v, xp)
    ensures KeepScore(votes[i := v], xp) == KeepScore(votes, xp) - KeepWeight(votes[i], xp) + KeepWeight(v, xp)
  {
    var n := |votes| - 1;
    if i < n {
      assert votes[i := v][..n] == votes[..n][i := v];
      ScoresUpdate(votes[..n], i, v, xp);
    } else {
      assert votes[i := v][..n] == votes[..n];
    }
  }

  /** Appending one record adds its weights to the tally. */
  lemma ScoresAppend(votes: seq<Vote>, v: Vote, xp: UserId -> nat)
    ensures SkipScore(votes + [v], xp) == SkipScore(votes, xp) + SkipWeight(v, xp)
    ensures KeepScore(votes + [v], xp) == KeepScore(votes, xp) + KeepWeight(v, xp)
  {
  }

  /**
   * Casting moves the voter's weight: whatever their first record counted
   * for is taken away and the new choice is counted instead, so a voter
   * never counts twice through voting again.
   */
  lemma CastScores(votes: seq<Vote>, voter: UserId, choice: Choice, xp: UserId -> nat)
    ensures var prior := ChoiceOf(voter, votes);
            var r := Cast(votes, voter, choice);
            && SkipScore(r, xp) == SkipScore(votes, xp)
                 - (if prior == Some(Skip) then xp(voter) else 0)
                 + (if choice == Skip then xp(voter) else 0)
            && KeepScore(r, xp) == KeepScore(votes, xp)
                 - (if prior == Some(Keep) then xp(voter) else 0)
                 + (if choice == Keep then xp(voter) else 0)
  {
    match FindVote(voter, votes)
    case Some(i) =>
      ScoresUpdate(votes, i, Vote(voter, choice), xp);
    case None =>
      ScoresAppend(votes, Vote(voter, choice), xp);
  }

  /** A skip vote never lowers the skip score nor raises the keep score. */
  lemma CastSkipFavoursSkipping(votes: seq<Vote>, voter: UserId, xp: UserId -> nat)
    ensures SkipScore(Cast(votes, voter, Skip), xp) >= SkipScore(votes, xp)
    ensures KeepScore(Cast(votes, voter, Skip), xp) <= KeepScore(votes, xp)
    ensures SkipWins(votes, xp) ==> SkipWins(Cast(votes, voter, Skip), xp)
  {
    CastScores(votes, voter, Skip, xp);
  }

  // ---------------------------------------------------------------------------
  // unvote
  // ---------------------------------------------------------------------------

  /** `list.remove(x)`: drops the first record EQUAL to `x` (same user, same value). */
  function RemoveFirst(votes: seq<Vote>, x: Vote): (r: seq<Vote>)
    ensures x in votes ==> |r| == |votes| - 1
    ensures x !in votes ==> r == votes
    ensures x in votes ==> multiset(r) + multiset{x} == multiset(votes)
  {
    if votes == [] then []
    else
      assert votes == [votes[0]] + votes[1..];
      if votes[0] == x then votes[1..]
      else [votes[0]] + RemoveFirst(votes[1..], x)
  }

  /**
   * The `unvote` loop as Python runs it: a `for` over the list calls `remove`
   * on that same list, so an index `i` walks the list while records are
   * deleted from under it, and the record that slides into a deleted slot is
   * skipped.
   */
  function UnvoteWalk(votes: seq<Vote>, voter: UserId, i: nat): (r: seq<Vote>)
    ensures |r| <= |votes|
    ensures multiset(r) <= multiset(votes)
    decreases |votes| - i
  {
    if i >= |votes| then votes
    else if votes[i].user == voter then UnvoteWalk(RemoveFirst(votes, votes[i]), voter, i + 1)
    else UnvoteWalk(votes, voter, i + 1)
  }

  /** The vote list after `unvote` has walked it from the start. */
  function Unvoted(votes: seq<Vote>, voter: UserId): seq<Vote>
  {
    UnvoteWalk(votes, voter, 0)
  }

  lemma {:induction false} RemoveFirstAt(votes: seq<Vote>, x: Vote, k: nat)
    requires k < |votes| && votes[k] == x
    requires forall j :: 0 <= j < k ==> votes[j] != x
    ensures RemoveFirst(votes, x) == votes[..k] + votes[k + 1..]
  {
    if k > 0 {
      RemoveFirstAt(votes[1..], x, k - 1);
      assert votes[1..][..k - 1] + votes[1..][k..] == (votes[..k] + votes[k + 1..])[1..];
    }
  }

  lemma {:induction false} RemoveFirstKeepsOthers(votes: seq<Vote>, x: Vote, voter: UserId)
    requires x.user == voter
    ensures Others(RemoveFirst(votes, x), voter) == Others(votes, voter)
  {
    if votes != [] && votes[0] != x {
      RemoveFirstKeepsOthers(votes[1..], x, voter);
      assert ([votes[0]] + RemoveFirst(votes[1..], x))[1..] == RemoveFirst(votes[1..], x);
    }
  }

  /** However the walk goes, it deletes only the voter's records: everybody else's stay, in order. */
  lemma {:induction false} UnvoteKeepsOthers(votes: seq<Vote>, voter: UserId, i: nat)
    ensures Others(UnvoteWalk(votes, voter, i), voter) == Others(votes, voter)
    decreases |votes| - i
  {
    if i < |votes| {
      if votes[i].user == voter {
        RemoveFirstKeepsOthers(votes, votes[i], voter);
        UnvoteKeepsOthers(RemoveFirst(votes, votes[i]), voter, i + 1);
      } else {
        UnvoteKeepsOthers(votes, voter, i + 1);
      }
    }
  }

  /** From `i` on, a walk that meets none of the voter's records changes nothing. */
  lemma {:induction false} UnvoteWalkNoMatch(votes: seq<Vote>, voter: UserId, i: nat)
    requires forall j :: i <= j < |votes| ==> votes[j].user != voter
    ensures UnvoteWalk(votes, voter, i) == votes
    decreases |votes| - i
  {
    if i < |votes| {
      UnvoteWalkNoMatch(votes, voter, i + 1);
    }
  }

  /** `unvote` by somebody without a record leaves the list as it was. */
  lemma UnvoteWithoutRecord(votes: seq<Vote>, voter: UserId)
    requires voter !in Voters(votes)
    ensures Unvoted(votes, voter) == votes
  {
    assert forall j :: 0 <= j < |votes| ==> votes[j].user in Voters(votes);
    UnvoteWalkNoMatch(votes, voter, 0);
  }

  /** The walk skips over positions before the first record of the voter. */
  lemma {:induction false} UnvoteWalkSkipsTo(votes: seq<Vote>, voter: UserId, i: nat, k: nat)
    requires i <= k <= |votes|
    requires forall j :: i <= j < k ==> votes[j].user != voter
    ensures UnvoteWalk(votes, voter, i) == UnvoteWalk(votes, voter, k)
    decreases k - i
  {
    if i < k {
      UnvoteWalkSkipsTo(votes, voter, i + 1, k);
    }
  }

  /** A voter with a record loses at least one: the walk reaches their first record and deletes it. */
  lemma UnvoteShrinks(votes: seq<Vote>, voter: UserId)
    requires voter in Voters(votes)
    ensures |Unvoted(votes, voter)| < |votes|
  {
    var k := FindVote(voter, votes).value;
    UnvoteWalkSkipsTo(votes, voter, 0, k);
    assert votes[k] in votes;
  }

  /**
   * With a single record (the case the vote protocol intends), `unvote`
   * deletes exactly that record and keeps the others in order.
   */
  lemma UnvoteSingleRecord(votes: seq<Vote>, voter: UserId, k: nat)
    requires k < |votes| && votes[k].user == voter
    requires forall j :: 0 <= j < |votes| && j != k ==> votes[j].user != voter
    ensures Unvoted(votes, voter) == votes[..k] + votes[k + 1..]
    ensures voter !in Voters(Unvoted(votes, voter))
  {
    UnvoteWalkSkipsTo(votes, voter, 0, k);
    var rest := votes[..k] + votes[k + 1..];
    assert RemoveFirst(votes, votes[k]) == rest by {
      RemoveFirstAt(votes, votes[k], k);
    }
    assert UnvoteWalk(votes, voter, k) == UnvoteWalk(rest, voter, k + 1);
    assert forall j :: 0 <= j < |rest| ==> rest[j].user != voter by {
      assert forall j :: 0 <= j < |rest| ==> rest[j] == votes[if j < k then j else j + 1];
    }
    UnvoteWalkNoMatch(rest, voter, k + 1);
  }

  /**
   * Two identical adjacent records of one voter (the playback loop adds a
   * requester's 'keep' without looking for an earlier record): one `unvote`
   * deletes the first, the walk then skips the second, and the voter is left
   * with a record.
   */
  lemma UnvoteLeavesAdjacentDuplicate(voter: UserId, c: Choice)
    ensures Unvoted([Vote(voter, c), Vote(voter, c)], voter) == [Vote(voter, c)]
    ensures voter in Voters(Unvoted([Vote(voter, c), Vote(voter, c)], voter))
  {
    var votes := [Vote(voter, c), Vote(voter, c)];
    assert RemoveFirst(votes, votes[0]) == [Vote(voter, c)];
    assert UnvoteWalk([Vote(voter, c)], voter, 1) == [Vote(voter, c)];
    assert [Vote(voter, c)][0].user == voter;
  }
}
