/**
 * The `Music` cog's own state and checks: the registry of sessions keyed by
 * server id (`get_voice_state`, and its removal in `stop`), the role check
 * shared by `stop` and `removesong`, and the integer clamp of `volume`.
 */
module Music {
  import opened Wrappers
  import opened Voice

  /** Identity of a chat server. */
  type ServerId = int

  /** `volume`: the requested percentage forced into 0..100. */
  function ClampVolume(value: int): (r: int)
    ensures 0 <= r <= 100
    ensures 0 <= value <= 100 ==> r == value
    ensures value < 0 ==> r == 0
    ensures value > 100 ==> r == 100
  {
    if value < 0 then 0 else if value > 100 then 100 else value
  }

  /**
   * Who may `stop` or `removesong`: with the RequiredStopRole setting equal
   * to "" only administrators; otherwise members having a role whose id
   * equals the setting (an absent setting, Python's None, equals no id).
   */
  predicate Permitted(requiredRole: Option<string>, isAdmin: bool, roleIds: seq<string>)
  {
    if requiredRole == Some("") then isAdmin
    else requiredRole.Some? && requiredRole.value in roleIds
  }

  /** The permission check as written: the admin flag, or a scan over the member's roles. */
  method CheckPermission(requiredRole: Option<string>, isAdmin: bool, roleIds: seq<string>) returns (ok: bool)
    ensures ok == Permitted(requiredRole, isAdmin, roleIds)
  {
    if requiredRole == Some("") {
      return isAdmin;
    }
    ok := false;
    for i := 0 to |roleIds|
      invariant ok <==> requiredRole.Some? && requiredRole.value in roleIds[..i]
    {
      assert roleIds[..i + 1] == roleIds[..i] + [roleIds[i]];
      if Some(roleIds[i]) == requiredRole {
        ok := true;
      }
    }
    assert roleIds[..|roleIds|] == roleIds;
  }

  /** What `removesong` reports. */
  datatype RemoveSongReply =
    | PermissionDenied
    | NoIndex
    | Attempted(outcome: RemoveOutcome)

  class Music {
    var voiceStates: map<ServerId, VoiceState>

    /** Every registered session keeps its own invariant. */
    ghost predicate Valid()
      reads this, voiceStates.Values
    {
      forall s :: s in voiceStates.Values ==> s.Valid()
    }

    /** The session registered for `server` and its current entry, if any. */
    ghost function SessionFootprint(server: ServerId): set<object>
      reads this, voiceStates.Values
    {
      if server in voiceStates then voiceStates[server].Footprint() else {}
    }

    constructor ()
      ensures Valid() && voiceStates == map[]
    {
      voiceStates := map[];
    }

    /** `get_voice_state`: the registered session, or a new one registered now. */
    method GetVoiceState(server: ServerId, now: int) returns (state: VoiceState)
      requires Valid()
      modifies this
      ensures Valid() && state.Valid()
      ensures voiceStates == old(voiceStates)[server := state]
      ensures server in old(voiceStates) ==> state == old(voiceStates[server])
      ensures server !in old(voiceStates) ==> fresh(state) && state.Initial(now)
    {
      if server in voiceStates {
        state := voiceStates[server];
        assert voiceStates == voiceStates[server := state];
      } else {
        state := new VoiceState(now);
        voiceStates := voiceStates[server := state];
      }
    }

    /**
     * The `stop` command: refused without permission; otherwise the session
     * (created first if there was none) stops its player if playing, its
     * task is cancelled, it leaves the registry and its playlist is emptied.
     */
    method Stop(server: ServerId, now: int, requiredRole: Option<string>, isAdmin: bool, roleIds: seq<string>)
      returns (stopped: bool)
      requires Valid()
      modifies this, SessionFootprint(server)
      ensures Valid()
      ensures stopped == Permitted(requiredRole, isAdmin, roleIds)
      ensures !stopped ==> voiceStates == old(voiceStates) && unchanged(old(SessionFootprint(server)))
      ensures stopped ==> voiceStates == old(voiceStates) - {server}
      ensures stopped && server in old(voiceStates) ==>
        var s := old(voiceStates[server]);
        && s.playlist == [] && s.cancelled && s.current == old(s.current)
        && (s.current != null ==> s.current.playerDone == (old(s.current.playerDone) || old(s.IsPlaying())))
    {
      stopped := CheckPermission(requiredRole, isAdmin, roleIds);
      if !stopped {
        return;
      }
      var state := GetVoiceState(server, now);
      state.Teardown();
      voiceStates := voiceStates - {server};
    }

    /**
     * The `removesong` command: refused without permission, a missing index
     * removes nothing, otherwise the session (created if there was none)
     * applies the position rules to its playlist.
     */
    method RemoveSong(server: ServerId, now: int, requiredRole: Option<string>, isAdmin: bool, roleIds: seq<string>,
                      position: Option<int>)
      returns (r: RemoveSongReply)
      requires Valid()
      modifies this, (if server in voiceStates then {voiceStates[server]} else {})`playlist
      ensures Valid()
      ensures !Permitted(requiredRole, isAdmin, roleIds) ==> r == PermissionDenied && voiceStates == old(voiceStates)
      ensures Permitted(requiredRole, isAdmin, roleIds) && position.None? ==> r == NoIndex && voiceStates == old(voiceStates)
      ensures r.Attempted? <==> Permitted(requiredRole, isAdmin, roleIds) && position.Some?
      ensures r.Attempted? ==>
        && server in voiceStates
        && voiceStates == old(voiceStates)[server := voiceStates[server]]
        && (server in old(voiceStates) ==> voiceStates[server] == old(voiceStates[server]))
        && (r.outcome, voiceStates[server].playlist)
           == RemoveAtPosition(old(if server in voiceStates then voiceStates[server].playlist else []), position.value)
      ensures server in old(voiceStates) && !r.Attempted? ==> unchanged(old(voiceStates[server]))
    {
      var ok := CheckPermission(requiredRole, isAdmin, roleIds);
      if !ok {
        return PermissionDenied;
      }
      if position.None? {
        return NoIndex;
      }
      var state := GetVoiceState(server, now);
      var outcome := state.RemoveSong(position.value);
      r := Attempted(outcome);
    }
  }
}
