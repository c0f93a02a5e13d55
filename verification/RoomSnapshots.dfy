/** Saving a room, checking a saved room and restoring it. */
module RoomSnapshots {
  import opened Wrappers
  import opened Cards
  import opened Rules
  import opened Invariant
  import opened Snapshots
  import opened Rooms
  import opened RoomInvariant

  const ROOM_SCHEMA_VERSION: int := 1

  datatype MemberSnapshot = MemberSnapshot(
    playerID: int, nickname: string, ready: bool, connected: bool, autoPlay: bool, strikes: int, abandoned: bool)

  /** The persisted form of a room, with the persisted form of its engine inside. */
  datatype RoomSnapshot = RoomSnapshot(
    schemaVersion: int,
    revision: nat,
    updatedAt: int,
    roomID: string,
    maxPlayers: int,
    ownerID: int,
    phase: RoomPhase,
    members: seq<MemberSnapshot>,
    engine: Option<Snapshot>,
    turnDeadline: Option<int>,
    matchID: int,
    matchStartedAt: Option<int>,
    matchSettled: bool)

  datatype RestoreError = InvalidRoom | AlreadySettled | InvalidEngine

  function SaveMember(m: Member): MemberSnapshot {
    MemberSnapshot(m.playerID, m.nickname, m.ready, m.connected, m.autoPlay, m.strikes, m.abandoned)
  }

  function SaveMembers(members: seq<Member>): seq<MemberSnapshot> {
    seq(|members|, i requires 0 <= i < |members| => SaveMember(members[i]))
  }

  function SavedInstant(t: int): Option<int> {
    if t == ZERO_TIME then None else Some(t)
  }

  /** The room as it is written, under the next revision number. */
  ghost function BuildSnapshot(r: RoomState, now: int): RoomSnapshot
    requires EngineOk(r.engine)
  {
    RoomSnapshot(ROOM_SCHEMA_VERSION, r.revision + 1, now, r.id, r.maxPlayers, r.ownerID, r.phase, SaveMembers(r.members),
                 (match r.engine
                  case None => None
                  case Some(g) => InvShape(g, false); Some(TakeSnapshot(g))),
                 SavedInstant(r.turnDeadline), r.matchID, SavedInstant(r.matchStartedAt), r.matchSettled)
  }

  /** The players who may still come back: the index of the store leads them to the room. */
  function ActiveIDs(members: seq<Member>): (ids: seq<int>)
    ensures forall id :: id in ids ==> exists i :: 0 <= i < |members| && members[i].playerID == id && !members[i].abandoned
  {
    if members == [] then []
    else ActiveIDs(members[..|members| - 1])
         + if members[|members| - 1].abandoned then [] else [members[|members| - 1].playerID]
  }

  // ----- What a saved room is checked for -----

  predicate SavedMemberOk(m: MemberSnapshot) {
    m.playerID > 0 && !Blank(m.nickname) && m.strikes >= 0
  }

  ghost predicate ValidMembers(s: RoomSnapshot) {
    && (forall i :: 0 <= i < |s.members| ==> SavedMemberOk(s.members[i]))
    && (forall i, j :: 0 <= i < j < |s.members| ==> s.members[i].playerID != s.members[j].playerID)
    && (exists i :: 0 <= i < |s.members| && s.members[i].playerID == s.ownerID)
  }

  predicate ValidFrame(recordID: string, s: RoomSnapshot) {
    && s.schemaVersion == ROOM_SCHEMA_VERSION
    && s.revision != 0 && s.updatedAt != ZERO_TIME
    && !Blank(s.roomID) && s.roomID == recordID
    && MIN_PLAYERS <= s.maxPlayers <= MAX_PLAYERS_CAP && 0 < |s.members| <= s.maxPlayers
    && !s.phase.RoomOther?
  }

  ghost predicate ValidIdle(s: RoomSnapshot) {
    && s.engine.None? && s.matchID == 0 && s.matchStartedAt.None?
    && (forall i :: 0 <= i < |s.members| ==> !s.members[i].autoPlay && !s.members[i].abandoned)
  }

  ghost predicate ValidActive(s: RoomSnapshot) {
    && |s.members| >= MIN_PLAYERS && s.engine.Some?
    && |s.engine.value.players| == |s.members|
    && (forall i :: 0 <= i < |s.members| ==> s.engine.value.players[i].id == s.members[i].playerID)
    && s.matchID >= 0 && (s.matchID > 0 ==> s.matchStartedAt.Some?)
    && (s.phase == RoomPlaying ==> !s.matchSettled)
  }

  ghost predicate ValidRoomSnapshot(recordID: string, s: RoomSnapshot) {
    ValidFrame(recordID, s) && ValidMembers(s) && if s.phase == RoomWaiting then ValidIdle(s) else ValidActive(s)
  }

  // ----- Restoring -----

  /** Everybody comes back offline, and while a round is on, managed. */
  function RestoreMember(m: MemberSnapshot, phase: RoomPhase): Member {
    Member(m.playerID, m.nickname, m.ready, false, m.autoPlay || phase == RoomPlaying, m.strikes, None, m.abandoned)
  }

  function RestoreMembers(members: seq<MemberSnapshot>, phase: RoomPhase): seq<Member> {
    seq(|members|, i requires 0 <= i < |members| => RestoreMember(members[i], phase))
  }

  /** What is left of the saved turn, but never less than the delay of a managed turn. */
  function RecoveredDelay(saved: Option<int>, opts: Options, now: int): int {
    if saved.Some? && saved.value - now > opts.managedDelay then saved.value - now else opts.managedDelay
  }

  ghost function RestoredRoom(s: RoomSnapshot, engine: Option<Game>, opts: Options, now: int): RoomState {
    var r := RoomState(s.roomID, s.maxPlayers, s.ownerID, s.phase, RestoreMembers(s.members, s.phase), engine,
                       None, 0, ZERO_TIME, None, 0, {}, s.matchID,
                       if s.matchStartedAt.Some? then s.matchStartedAt.value else ZERO_TIME, s.matchSettled,
                       s.revision, false, false);
    if s.phase == RoomPlaying then ArmTurn(r, RecoveredDelay(s.turnDeadline, opts, now), AutoPlayTurn, now) else r
  }

  ghost function RestoreRoom(recordID: string, s: RoomSnapshot, opts: Options, now: int): Result<RoomState, RestoreError> {
    if !ValidRoomSnapshot(recordID, s) then Err(InvalidRoom)
    else if s.phase == RoomSettled then Err(AlreadySettled)
    else match s.engine
         case None => Ok(RestoredRoom(s, None, opts, now))
         case Some(e) =>
           match Restore(e)
           case Err(_) => Err(InvalidEngine)
           case Ok(g) => Ok(RestoredRoom(s, Some(g), opts, now))
  }

  // ----- Everything saved can be restored -----

  lemma SavedMembersOk(r: RoomState)
    requires RoomInv(r) && !r.destroyed
    ensures var members := SaveMembers(r.members);
            && (forall i :: 0 <= i < |members| ==> SavedMemberOk(members[i]))
            && (forall i, j :: 0 <= i < j < |members| ==> members[i].playerID != members[j].playerID)
            && (exists i :: 0 <= i < |members| && members[i].playerID == r.ownerID)
            && 0 < |members| <= r.maxPlayers
  {
    var i :| 0 <= i < |r.members| && r.members[i].playerID == r.ownerID;
    assert SaveMembers(r.members)[i].playerID == r.ownerID;
    hide EngineOk, PhaseOk;
  }

  /** A room that is not settled and not destroyed is written in a form that passes the check, engine included. */
  lemma SavedRoomValid(r: RoomState, now: int)
    requires RoomInv(r) && !r.destroyed && r.phase != RoomSettled && now != ZERO_TIME
    ensures var s := BuildSnapshot(r, now);
            ValidRoomSnapshot(r.id, s) && (s.engine.Some? ==> ValidSnapshot(s.engine.value))
  {
    SavedMembersOk(r);
    if r.engine.Some? {
      InvValid(r.engine.value, false);
      PlayersSaved(r.engine.value);
    }
    assert 2 <= r.maxPlayers <= 6;
    hide EngineOk, MembersOk, OwnerIn, Inv, ValidSnapshot, TakeSnapshot, SavedMemberOk;
  }

  lemma PlayersSaved(g: Game)
    requires Inv(g, false)
    ensures Shape(g) && TakeSnapshot(g).players == g.players && |g.players| >= 2
  {
  }

  /** The same room after a restart: everything but connections and timers is back. */
  ghost predicate SameAfterRestart(r: RoomState, back: RoomState) {
    && back.id == r.id && back.maxPlayers == r.maxPlayers && back.ownerID == r.ownerID && back.phase == r.phase
    && back.engine == r.engine
    && back.matchID == r.matchID && back.matchStartedAt == r.matchStartedAt && back.matchSettled == r.matchSettled
    && back.revision == r.revision + 1
    && !back.destroyed && !back.closing
    && |back.members| == |r.members|
    && forall i :: 0 <= i < |r.members| ==>
         back.members[i] == r.members[i].(session := None, connected := false,
                                          autoPlay := r.members[i].autoPlay || r.phase == RoomPlaying)
  }

  lemma MembersComeBack(members: seq<Member>, phase: RoomPhase)
    ensures var back := RestoreMembers(SaveMembers(members), phase);
            && |back| == |members|
            && forall i :: 0 <= i < |members| ==>
                 back[i] == members[i].(session := None, connected := false,
                                        autoPlay := members[i].autoPlay || phase == RoomPlaying)
  {
  }

  /** What a room saves restores to the same room, in order, with everybody offline. */
  lemma SavedRoomRestores(r: RoomState, saved: int, opts: Options, now: int)
    requires RoomInv(r) && !r.destroyed && r.phase != RoomSettled && saved != ZERO_TIME
    ensures var back := RestoreRoom(r.id, BuildSnapshot(r, saved), opts, now);
            back.Ok? && SameAfterRestart(r, back.value) && RoomInv(back.value)
  {
    var s := BuildSnapshot(r, saved);
    SavedRoomValid(r, saved);
    MembersComeBack(r.members, r.phase);
    if r.engine.Some? {
      RestoreSnapshot(r.engine.value, false);
    }
    var back := RestoredRoom(s, r.engine, opts, now);
    assert SavedInstant(r.matchStartedAt) == None ==> r.matchStartedAt == ZERO_TIME;
    assert RestoreRoom(r.id, s, opts, now) == Ok(back);
    assert SameAfterRestart(r, back);
    hide BuildSnapshot, RestoreRoom, RestoredRoom, ValidRoomSnapshot, ValidSnapshot;
    RestartInv(r, back);
  }

  lemma RestartInv(r: RoomState, back: RoomState)
    requires RoomInv(r) && !r.destroyed && r.phase != RoomSettled && SameAfterRestart(r, back)
    ensures RoomInv(back)
  {
    var i :| 0 <= i < |r.members| && r.members[i].playerID == r.ownerID;
    assert back.members[i].playerID == r.ownerID;
    assert RoomInv(back) by {
      assert MembersOk(back.members, back.maxPlayers);
      hide EngineOk;
    }
  }

  /** The check does not ask whether the engine of a playing room is finished: two players in a playing room around a
      finished engine pass, and are restored. */
  lemma PlayingAroundFinishedExists(recordID: string, opts: Options, now: int)
    requires !Blank(recordID)
    ensures exists s: RoomSnapshot ::
              && RestoreRoom(recordID, s, opts, now).Ok?
              && s.phase == RoomPlaying && s.engine.Some? && s.engine.value.phase == Finished
  {
    var rest := AllBut(1);
    var top := CanonicalCard(1);
    assert top.color.Valid() && !top.IsWild();
    hide StandardDeck, IsCanonical, CanonicalCard, RestoreRoom, ValidRoomSnapshot, ValidSnapshot;
    FinishedSaveValid(rest, top);
    FinishedRoomValid(recordID, FinishedSave(rest, top));
    Restorable(recordID, FinishedRoom(recordID, FinishedSave(rest, top)), opts, now);
  }

  function FinishedRoom(recordID: string, e: Snapshot): RoomSnapshot {
    var first := MemberSnapshot(1, "a", true, false, true, 0, false);
    var second := MemberSnapshot(2, "b", true, false, true, 0, false);
    RoomSnapshot(ROOM_SCHEMA_VERSION, 1, 1, recordID, 2, 1, RoomPlaying, [first, second], Some(e), None, 0, None, false)
  }

  lemma FinishedRoomValid(recordID: string, e: Snapshot)
    requires !Blank(recordID) && |e.players| == 2 && e.players[0].id == 1 && e.players[1].id == 2
    ensures ValidRoomSnapshot(recordID, FinishedRoom(recordID, e))
  {
    var s := FinishedRoom(recordID, e);
    assert "a"[0] == 'a' && "b"[0] == 'b';
    assert s.members[0].playerID == s.ownerID;
    assert ValidMembers(s) && ValidActive(s) && ValidFrame(recordID, s);
  }

  lemma Restorable(recordID: string, s: RoomSnapshot, opts: Options, now: int)
    requires ValidRoomSnapshot(recordID, s) && s.phase == RoomPlaying && s.engine.Some? && ValidSnapshot(s.engine.value)
    ensures RestoreRoom(recordID, s, opts, now).Ok?
  {
    hide ValidRoomSnapshot, ValidSnapshot;
  }

  /** A record is refused under another room's name, in another version, unnumbered or undated, whatever else it holds. */
  lemma OnlyItsOwnRecord(recordID: string, s: RoomSnapshot, other: string, version: int, opts: Options, now: int)
    requires ValidRoomSnapshot(recordID, s)
    ensures s.roomID == recordID && s.schemaVersion == 1 && s.revision > 0
    ensures other != recordID ==> RestoreRoom(other, s, opts, now) == Err(InvalidRoom)
    ensures version != 1 ==> RestoreRoom(recordID, s.(schemaVersion := version), opts, now) == Err(InvalidRoom)
    ensures RestoreRoom(recordID, s.(revision := 0), opts, now) == Err(InvalidRoom)
    ensures RestoreRoom(recordID, s.(updatedAt := ZERO_TIME), opts, now) == Err(InvalidRoom)
  {
    hide ValidMembers, ValidIdle, ValidActive, Restore, RestoredRoom;
  }

  /** The index of the store leads to the room exactly the players who may still come back. */
  lemma {:induction false} ActiveIDsAre(members: seq<Member>, id: int)
    ensures id in ActiveIDs(members) <==> exists i :: 0 <= i < |members| && members[i].playerID == id && !members[i].abandoned
  {
    if members != [] {
      var front, last := members[..|members| - 1], members[|members| - 1];
      ActiveIDsAre(front, id);
      if i :| 0 <= i < |members| && members[i].playerID == id && !members[i].abandoned {
        assert i < |front| ==> front[i] == members[i];
      }
      if id in ActiveIDs(front) {
        var i :| 0 <= i < |front| && front[i].playerID == id && !front[i].abandoned;
        assert members[i] == front[i];
      }
    }
  }
}
