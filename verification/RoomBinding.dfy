/** Seats belong to players, and a seat listens to one connection at a time. */
module RoomBinding {
  import opened Wrappers
  import opened Rules
  import opened Rooms
  import opened RoomInvariant

  /** The seat of a player listens to this connection. */
  ghost predicate Bound(r: RoomState, s: Session) {
    var i := FindMember(r.members, s.playerID);
    i.Some? && r.members[i.value].session == Some(s) && r.members[i.value].connected
  }

  /** After a player has come back on a new connection the old one is deaf: its late disconnect changes nothing and its
      messages are refused. */
  lemma OldConnectionIsDeaf(r: RoomState, previous: Session, current: Session, message: Message, opts: Options, now: int,
                            input: Input)
    requires EngineOk(r.engine) && InputOk(input)
    requires previous.playerID == current.playerID && previous != current
    requires TryReconnect(r, Some(current), opts, now).error.None?
    ensures var back := TryReconnect(r, Some(current), opts, now).room;
            && Bound(back, current)
            && HandleDisconnect(back, Some(previous), opts, now) == back
            && HandleMessage(back, previous, message, opts, input) == Handled(back, Some(NotInRoom))
  {
    hide EngineOk, Actor, InputOk, Vacate, RemoveMember, HandleReady, HandleStart, HandleLeave, HandleKick, HandleMove;
    var i := FindMember(r.members, current.playerID).value;
    var m := r.members[i].(session := Some(current), connected := true, autoPlay := false, strikes := 0);
    var back := TryReconnect(r, Some(current), opts, now).room;
    ScheduleTurnMembers(CancelEmpty(SetMember(r, i, m)), opts, now);
    assert back.members == r.members[i := m];
    FoundAgain(r.members, i, m);
  }

  lemma ScheduleTurnMembers(r: RoomState, opts: Options, now: int)
    requires EngineOk(r.engine)
    ensures ScheduleTurn(r, opts, now).members == r.members
  {
    hide EngineOk, Actor;
  }

  lemma FoundAgain(members: seq<Member>, i: nat, m: Member)
    requires i < |members| && FindMember(members, m.playerID) == Some(i)
    ensures FindMember(members[i := m], m.playerID) == Some(i)
  {
    var j := FindMember(members[i := m], m.playerID);
    assert members[i := m][i] == m;
    assert j.Some?;
    assert members[i := m][j.value].playerID == m.playerID;
  }

  /** Whoever leaves, the others keep their order; the owner's place goes to the first of them, who is ready. */
  lemma LeavingKeepsOrder(r: RoomState, playerID: int, opts: Options)
    requires RoomInv(r) && !r.destroyed && FindMember(r.members, playerID).Some?
    ensures var i, r' := FindMember(r.members, playerID).value, RemoveMember(r, playerID, opts);
            && MemberIDs(r'.members) == MemberIDs(r.members[..i]) + MemberIDs(r.members[i + 1..])
            && (r'.destroyed <==> |r.members| == 1)
            && (|r.members| > 1 ==>
                  if playerID == r.ownerID then r'.ownerID == r'.members[0].playerID && r'.members[0].ready
                  else r'.ownerID == r.ownerID && r'.members == r.members[..i] + r.members[i + 1..])
            && FindMember(r'.members, playerID).None?
  {
    hide EngineOk, PhaseOk, MemberOk, ScheduleEmpty, RemoveAt;
    var i := FindMember(r.members, playerID).value;
    LeftList(r.members, i);
    var left := r.(members := RemoveAt(r.members, i));
    var r' := RemoveMember(r, playerID, opts);
    if left.members != [] {
      var owned := SetMember(left, 0, left.members[0].(ready := true)).(ownerID := left.members[0].playerID);
      WatchedSame(left, opts);
      WatchedSame(owned, opts);
      assert MemberIDs(owned.members) == MemberIDs(left.members);
    }
    assert MemberIDs(r'.members) == MemberIDs(left.members);
    GoneFrom(r'.members, playerID);
  }

  lemma WatchedSame(r: RoomState, opts: Options)
    ensures var w := ScheduleEmpty(r, opts); w.members == r.members && w.ownerID == r.ownerID && w.destroyed == r.destroyed
  {
  }

  lemma GoneFrom(members: seq<Member>, playerID: int)
    requires playerID !in MemberIDs(members)
    ensures FindMember(members, playerID).None?
  {
    assert forall i :: 0 <= i < |members| ==> MemberIDs(members)[i] == members[i].playerID;
  }

  lemma LeftList(members: seq<Member>, i: nat)
    requires i < |members| && DistinctMembers(members)
    ensures RemoveAt(members, i) == members[..i] + members[i + 1..]
    ensures MemberIDs(RemoveAt(members, i)) == MemberIDs(members[..i]) + MemberIDs(members[i + 1..])
    ensures members[i].playerID !in MemberIDs(RemoveAt(members, i))
  {
    var left := RemoveAt(members, i);
    assert forall j :: 0 <= j < |left| ==> left[j] == members[if j < i then j else j + 1];
    assert MemberIDs(left) == MemberIDs(members[..i]) + MemberIDs(members[i + 1..]);
  }

  /** A player who walked out of a round is barred: his reconnect is refused and changes nothing. */
  lemma AbandonedIsBarred(r: RoomState, index: nat, opts: Options, now: int, again: Session, later: int)
    requires RoomInv(r) && r.phase == RoomPlaying && index < |r.members| && again.playerID == r.members[index].playerID
    ensures EngineOk(r.engine)
    ensures var gone := Vacate(r, index, true, opts, now);
            TryReconnect(gone, Some(again), opts, later) == Handled(gone, Some(NotInRoom))
  {
    assert EngineOk(r.engine);
    VacateInv(r, index, true, opts, now);
    var gone := Vacate(r, index, true, opts, now);
    var m := r.members[index].(session := None, connected := false, autoPlay := true, abandoned := true);
    ScheduleTurnMembers(ScheduleEmpty(SetMember(r, index, m), opts), opts, now);
    assert gone.members == r.members[index := m];
    assert gone.members[index] == m && DistinctMembers(gone.members);
    hide EngineOk, Actor, PhaseOk, Vacate;
    var j := FindMember(gone.members, again.playerID);
    assert j.Some? && gone.members[j.value].playerID == gone.members[index].playerID;
  }
}
