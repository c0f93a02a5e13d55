/** Opening a room and bringing a saved one back. */
module RoomRestore {
  import opened Wrappers
  import opened Rules
  import opened Setup
  import opened Snapshots
  import opened Engines
  import opened Validation
  import opened Rooms
  import opened RoomInvariant
  import opened RoomSnapshots
  import opened RoomActors

  /** A new room; an impossible number of seats becomes the default. */
  method OpenRoom(id: string, maxPlayers: int, owner: Session, options: Options) returns (room: Room)
    ensures fresh(room) && room.engine == null && room.options == options
    ensures room.State() == NewRoom(id, maxPlayers, owner)
  {
    var seats := maxPlayers;
    if maxPlayers < MIN_PLAYERS || maxPlayers > MAX_PLAYERS_CAP {
      seats := DEFAULT_MAX_PLAYERS;
    }
    var first := Member(owner.playerID, owner.nickname, true, true, false, 0, Some(owner), false);
    room := new Room(RoomState(id, seats, owner.playerID, RoomWaiting, [first], None, None, 0, ZERO_TIME, None, 0, {},
                               0, ZERO_TIME, false, 0, false, false), null, options);
  }

  // ----- Checking a saved room -----

  ghost predicate SeenMembers(members: seq<MemberSnapshot>, n: nat, seen: set<int>)
    requires n <= |members|
  {
    && (forall i :: 0 <= i < n ==> SavedMemberOk(members[i]) && members[i].playerID in seen)
    && (forall i, j :: 0 <= i < j < n ==> members[i].playerID != members[j].playerID)
    && (forall id :: id in seen ==> Held(members, n, id))
  }

  ghost predicate Held(members: seq<MemberSnapshot>, n: nat, id: int)
    requires n <= |members|
  {
    exists i :: 0 <= i < n && members[i].playerID == id
  }

  lemma SeenOneMore(members: seq<MemberSnapshot>, n: nat, seen: set<int>)
    requires n < |members| && SeenMembers(members, n, seen)
    requires SavedMemberOk(members[n]) && members[n].playerID !in seen
    ensures SeenMembers(members, n + 1, seen + {members[n].playerID})
  {
    forall id | id in seen + {members[n].playerID} ensures Held(members, n + 1, id) {
      if id in seen {
        assert Held(members, n, id);
        var i :| 0 <= i < n && members[i].playerID == id;
        assert members[i].playerID == id;
      } else {
        assert members[n].playerID == id;
      }
    }
  }

  method ValidateMembers(s: RoomSnapshot) returns (ok: bool)
    ensures ok <==> ValidMembers(s)
  {
    var seen: set<int> := {};
    var ownerFound := false;
    for i := 0 to |s.members|
      invariant SeenMembers(s.members, i, seen)
      invariant ownerFound <==> exists j :: 0 <= j < i && s.members[j].playerID == s.ownerID
    {
      var m := s.members[i];
      if m.playerID <= 0 || Blank(m.nickname) || m.strikes < 0 {
        assert !SavedMemberOk(s.members[i]);
        return false;
      }
      if m.playerID in seen {
        assert Held(s.members, i, m.playerID);
        return false;
      }
      SeenOneMore(s.members, i, seen);
      seen := seen + {m.playerID};
      ownerFound := ownerFound || m.playerID == s.ownerID;
    }
    ok := ownerFound;
  }

  method ValidateIdle(s: RoomSnapshot) returns (ok: bool)
    ensures ok <==> ValidIdle(s)
  {
    if s.engine.Some? || s.matchID != 0 || s.matchStartedAt.Some? {
      return false;
    }
    for i := 0 to |s.members|
      invariant forall j :: 0 <= j < i ==> !s.members[j].autoPlay && !s.members[j].abandoned
    {
      if s.members[i].autoPlay || s.members[i].abandoned {
        return false;
      }
    }
    ok := true;
  }

  method ValidateActive(s: RoomSnapshot) returns (ok: bool)
    ensures ok <==> ValidActive(s)
  {
    if |s.members| < MIN_PLAYERS || s.engine.None? {
      return false;
    }
    if |s.engine.value.players| != |s.members| {
      return false;
    }
    for seat := 0 to |s.members|
      invariant forall i :: 0 <= i < seat ==> s.engine.value.players[i].id == s.members[i].playerID
    {
      if s.engine.value.players[seat].id != s.members[seat].playerID {
        return false;
      }
    }
    if s.matchID < 0 || (s.matchID > 0 && s.matchStartedAt.None?) {
      return false;
    }
    ok := !(s.phase == RoomPlaying && s.matchSettled);
  }

  method ValidateRoomSnapshot(recordID: string, s: RoomSnapshot) returns (ok: bool)
    ensures ok <==> ValidRoomSnapshot(recordID, s)
  {
    if s.schemaVersion != ROOM_SCHEMA_VERSION || s.revision == 0 || s.updatedAt == ZERO_TIME {
      return false;
    }
    if Blank(s.roomID) || s.roomID != recordID {
      return false;
    }
    if s.maxPlayers < MIN_PLAYERS || s.maxPlayers > MAX_PLAYERS_CAP || |s.members| == 0 || |s.members| > s.maxPlayers {
      return false;
    }
    if s.phase != RoomWaiting && s.phase != RoomPlaying && s.phase != RoomSettled {
      return false;
    }
    var membersOk := ValidateMembers(s);
    if !membersOk {
      return false;
    }
    if s.phase == RoomWaiting {
      ok := ValidateIdle(s);
    } else {
      ok := ValidateActive(s);
    }
  }

  // ----- Restoring -----

  method RestoreSeats(s: RoomSnapshot) returns (members: seq<Member>)
    ensures members == RestoreMembers(s.members, s.phase)
  {
    members := [];
    for i := 0 to |s.members|
      invariant |members| == i && forall j :: 0 <= j < i ==> members[j] == RestoreMember(s.members[j], s.phase)
    {
      var m := s.members[i];
      var autoPlay := m.autoPlay;
      if s.phase == RoomPlaying {
        autoPlay := true;
      }
      members := members + [Member(m.playerID, m.nickname, m.ready, false, autoPlay, m.strikes, None, m.abandoned)];
    }
  }

  lemma RestoredSeats(e: Snapshot)
    ensures Restore(e).Ok? ==> |e.players| >= 2
  {
  }

  /** Validates a record, restores its engine and rebuilds the room around it. */
  method RestoreSavedRoom(recordID: string, s: RoomSnapshot, options: Options, now: int)
    returns (r: Result<Room, RestoreError>)
    ensures match RestoreRoom(recordID, s, options, now)
            case Err(e) => r == Err(e)
            case Ok(state) => r.Ok? && fresh(r.value) && r.value.State() == state && r.value.options == options
                              && (r.value.engine == null || fresh(r.value.engine))
  {
    hide ValidRoomSnapshot, Restore, RestoreMembers;
    var ok := ValidateRoomSnapshot(recordID, s);
    if !ok {
      return Err(InvalidRoom);
    }
    if s.phase == RoomSettled {
      return Err(AlreadySettled);
    }
    var engine: Engine? := null;
    if s.engine.Some? {
      RestoredSeats(s.engine.value);
      var restored := RestoreEngine(s.engine.value, Config(0, 0));
      if restored.Err? {
        return Err(InvalidEngine);
      }
      engine := restored.value;
    }
    var members := RestoreSeats(s);
    var startedAt := if s.matchStartedAt.Some? then s.matchStartedAt.value else ZERO_TIME;
    var round := if engine == null then None else Some(engine.State());
    var room := new Room(RoomState(s.roomID, s.maxPlayers, s.ownerID, s.phase, members, round, None, 0, ZERO_TIME, None, 0, {},
                                   s.matchID, startedAt, s.matchSettled, s.revision, false, false), engine, options);
    if s.phase == RoomPlaying {
      var delay := options.managedDelay;
      if s.turnDeadline.Some? {
        var remaining := s.turnDeadline.value - now;
        if remaining > delay {
          delay := remaining;
        }
      }
      room.ArmTurnTimer(delay, AutoPlayTurn, now);
    }
    r := Ok(room);
  }
}
