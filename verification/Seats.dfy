/** What every command does to every seat of a room; when time-outs hand a seat to the server. */
module Seats {
  import opened Wrappers
  import opened Rules
  import opened Invariant
  import opened Rooms
  import opened RoomInvariant
  import opened RoomSnapshots
  import opened RoomPromises
  import opened Mailboxes
  import opened MailboxRuns
  import opened RoomRuns

  /** The member with this id. */
  function Who(members: seq<Member>, id: int): Option<Member> {
    match FindMember(members, id)
    case None => None
    case Some(i) => Some(members[i])
  }

  lemma WhoIs(members: seq<Member>, i: nat)
    requires DistinctMembers(members) && i < |members|
    ensures Who(members, members[i].playerID) == Some(members[i])
  {
  }

  lemma NoWho(members: seq<Member>, id: int)
    requires forall i :: 0 <= i < |members| ==> members[i].playerID != id
    ensures Who(members, id).None?
  {
  }

  lemma WhoSet(members: seq<Member>, i: nat, m: Member, id: int)
    requires DistinctMembers(members) && i < |members| && m.playerID == members[i].playerID
    ensures Who(members[i := m], id) == if id == m.playerID then Some(m) else Who(members, id)
    ensures DistinctMembers(members[i := m])
  {
    var after := members[i := m];
    assert DistinctMembers(after);
    if j :| 0 <= j < |members| && members[j].playerID == id {
      WhoIs(members, j);
      WhoIs(after, j);
    } else {
      NoWho(members, id);
      NoWho(after, id);
    }
  }

  lemma WhoRemoved(members: seq<Member>, i: nat, id: int)
    requires DistinctMembers(members) && i < |members|
    ensures Who(RemoveAt(members, i), id) == if id == members[i].playerID then None else Who(members, id)
    ensures DistinctMembers(RemoveAt(members, i))
  {
    var left := RemoveAt(members, i);
    assert forall j :: 0 <= j < |left| ==> left[j] == members[if j < i then j else j + 1];
    assert DistinctMembers(left);
    if j :| 0 <= j < |members| && members[j].playerID == id {
      WhoIs(members, j);
      if j != i {
        var k := if j < i then j else j - 1;
        assert left[k] == members[j];
        WhoIs(left, k);
      } else {
        NoWho(left, id);
      }
    } else {
      NoWho(members, id);
      NoWho(left, id);
    }
  }

  lemma WhoJoined(members: seq<Member>, m: Member, id: int)
    requires DistinctMembers(members) && forall i :: 0 <= i < |members| ==> members[i].playerID != m.playerID
    ensures Who(members + [m], id) == if id == m.playerID then Some(m) else Who(members, id)
    ensures DistinctMembers(members + [m])
  {
    var after := members + [m];
    assert after[|members|] == m;
    if j :| 0 <= j < |members| && members[j].playerID == id {
      WhoIs(members, j);
      assert after[j] == members[j];
      WhoIs(after, j);
    } else {
      NoWho(members, id);
      if id == m.playerID { WhoIs(after, |members|); } else { NoWho(after, id); }
    }
  }

  // ----- What happens to a player -----

  datatype Happening =
    | Nothing
    | TimedOut
    | Returned(session: Session)
    | WentAway(walkedOut: bool)
    | Joined(session: Session)
    | Left

  /** The four messages by which a player takes his turn. */
  predicate TakesTurn(move: Move) { move.PlayMove? || move.DrawMove? || move.PassMove? || move.ColorMove? }

  /** The message got through: whatever went wrong afterwards was the store. */
  predicate Through(error: Option<RoomError>) { error == None || error == Some(StoreFailed) }

  /** What a command means for one player, going by the command, its reply and whose turn it is. */
  ghost function HappensTo(r: RoomState, command: RoomCommand, error: Option<RoomError>, id: int): Happening {
    match command
    case FromPlayer(s, message) =>
      (match message
       case MoveMessage(move) =>
         if s.playerID == id && TakesTurn(move) && Through(error) then Returned(s) else Nothing
       case LeaveMessage =>
         if s.playerID != id || error.Some? then Nothing
         else if r.phase == RoomPlaying then WentAway(true) else Left
       case KickMessage(target) => if target == Some(id) && error.None? then Left else Nothing
       case _ => Nothing)
    case Join(s) => if s.playerID == id && error.None? then Joined(s) else Nothing
    case Disconnect(who) =>
      if who.None? || who.value.playerID != id || Who(r.members, id).None? || Who(r.members, id).value.session != who then Nothing
      else if r.phase == RoomPlaying then WentAway(false) else Left
    case Reconnect(who) => if who.Some? && who.value.playerID == id && error.None? then Returned(who.value) else Nothing
    case Timer(TurnEvent(kind, token)) =>
      if kind == TurnTimeout && token == r.turnToken && r.phase == RoomPlaying && r.engine.Some?
         && 0 <= r.engine.value.currentSeat < |r.members| && r.members[r.engine.value.currentSeat].playerID == id
      then TimedOut else Nothing
    case _ => Nothing
  }

  /** What that does to his seat. */
  ghost predicate SeatAfter(a: Option<Member>, what: Happening, b: Option<Member>, id: int, opts: Options) {
    match what
    case Nothing => a.Some? == b.Some? && (a.Some? ==> b.value == a.value.(ready := b.value.ready))
    case TimedOut =>
      a.Some? && b == Some(a.value.(strikes := a.value.strikes + 1,
                           autoPlay := a.value.autoPlay || a.value.strikes + 1 >= opts.strikeLimit))
    case Returned(s) => a.Some? && b == Some(a.value.(session := Some(s), connected := true, strikes := 0, autoPlay := false))
    case WentAway(walkedOut) =>
      a.Some? && b == Some(a.value.(session := None, connected := false, autoPlay := true,
                           abandoned := a.value.abandoned || walkedOut))
    case Joined(s) => a.None? && b == Some(Member(id, s.nickname, false, true, false, 0, Some(s), false))
    case Left => a.Some? && b.None?
  }

  // ----- Command by command -----

  lemma SameSeat(members: seq<Member>, id: int, opts: Options)
    ensures SeatAfter(Who(members, id), Nothing, Who(members, id), id, opts)
  {
  }

  /** Who is removed is gone; the others keep their seats, the new owner is ready. */
  lemma RemovedSeat(r: RoomState, playerID: int, opts: Options, id: int)
    requires DistinctMembers(r.members)
    ensures SeatAfter(Who(r.members, id), if id == playerID && Who(r.members, id).Some? then Left else Nothing,
                      Who(RemoveMember(r, playerID, opts).members, id), id, opts)
  {
    hide RemoveMember, RemoveAt, Who, DistinctMembers;
    FoundIs(r.members, playerID);
    var i := FindMember(r.members, playerID);
    if i.Some? {
      var left := RemoveAt(r.members, i.value);
      WhoRemoved(r.members, i.value, id);
      LeftMembers(r, playerID, opts, i.value);
      if left != [] {
        WhoSet(left, 0, left[0].(ready := true), id);
        WhoIs(left, 0);
      }
    } else {
      RemovedNobody(r, playerID, opts);
    }
  }

  lemma FoundIs(members: seq<Member>, id: int)
    ensures Who(members, id) == match FindMember(members, id) case None => None case Some(i) => Some(members[i])
  {
  }

  lemma VacatedSeat(r: RoomState, i: nat, abandoned: bool, opts: Options, now: int, id: int)
    requires EngineOk(r.engine) && DistinctMembers(r.members) && i < |r.members|
    requires abandoned == r.members[i].abandoned || abandoned
    ensures SeatAfter(Who(r.members, id),
                      if id == r.members[i].playerID then WentAway(abandoned && !r.members[i].abandoned) else Nothing,
                      Who(Vacate(r, i, abandoned, opts, now).members, id), id, opts)
  {
    var m := r.members[i].(session := None, connected := false, autoPlay := true, abandoned := abandoned);
    var watched := ScheduleEmpty(SetMember(r, i, m), opts);
    assert watched.members == r.members[i := m] && watched.engine == r.engine;
    ScheduledMembers(watched, opts, now);
    WhoSet(r.members, i, m, id);
    WhoIs(r.members, i);
    hide EngineOk, Actor, HasConnected, ScheduleTurn, IsActor, FindMember;
  }

  lemma ReconnectedSeat(r: RoomState, who: Option<Session>, opts: Options, now: int, id: int)
    requires EngineOk(r.engine) && DistinctMembers(r.members)
    ensures var h := TryReconnect(r, who, opts, now);
            SeatAfter(Who(r.members, id), HappensTo(r, Reconnect(who), h.error, id), Who(h.room.members, id), id, opts)
  {
    hide EngineOk, Actor, ScheduleTurn, IsActor, Who, DistinctMembers;
    if who.Some? {
      var i := FindMember(r.members, who.value.playerID);
      if i.Some? && !r.members[i.value].abandoned {
        var m := r.members[i.value].(session := who, connected := true, autoPlay := false, strikes := 0);
        BackMembers(r, who.value, i.value, opts, now);
        WhoSet(r.members, i.value, m, id);
        WhoIs(r.members, i.value);
      }
    }
    hide FindMember;
  }

  lemma BackMembers(r: RoomState, s: Session, i: nat, opts: Options, now: int)
    requires EngineOk(r.engine) && FindMember(r.members, s.playerID) == Some(i) && !r.members[i].abandoned
    ensures var h := TryReconnect(r, Some(s), opts, now);
            && h.error.None?
            && h.room.members == r.members[i := r.members[i].(session := Some(s), connected := true, autoPlay := false, strikes := 0)]
  {
    var m := r.members[i].(session := Some(s), connected := true, autoPlay := false, strikes := 0);
    ScheduledMembers(CancelEmpty(SetMember(r, i, m)), opts, now);
    hide EngineOk, Actor, ScheduleTurn, IsActor, FindMember;
  }

  lemma JoinedSeat(r: RoomState, s: Session, id: int, opts: Options)
    requires DistinctMembers(r.members)
    ensures var h := TryJoin(r, s);
            SeatAfter(Who(r.members, id), HappensTo(r, Join(s), h.error, id), Who(h.room.members, id), id, opts)
  {
    if TryJoin(r, s).error.None? {
      var m := Member(s.playerID, s.nickname, false, true, false, 0, Some(s), false);
      WhoJoined(r.members, m, id);
      NoWho(r.members, s.playerID);
    }
    hide FindMember;
  }

  lemma ReadySeat(r: RoomState, s: Session, ready: Option<bool>, id: int, opts: Options)
    requires DistinctMembers(r.members)
    ensures SeatAfter(Who(r.members, id), Nothing, Who(HandleReady(r, s, ready).room.members, id), id, opts)
  {
    hide Who, DistinctMembers;
    var i := FindMember(r.members, s.playerID);
    if i.Some? && HandleReady(r, s, ready).error.None? {
      var m := r.members[i.value];
      WhoSet(r.members, i.value, m.(ready := m.playerID == r.ownerID || ready.value), id);
      WhoIs(r.members, i.value);
    }
    hide FindMember;
  }

  lemma StartSeat(r: RoomState, s: Session, opts: Options, input: Input)
    requires EngineOk(r.engine) && InputOk(input)
    ensures HandleStart(r, s, opts, input).room.members == r.members
  {
    var game := Setup.NewGame(MemberIDs(r.members), 0, input.dealing);
    DealtEngine(MemberIDs(r.members), input.dealing);
    var p := PersistStart(r, opts, input).room;
    assert p.members == r.members;
    hide Setup.NewGame, InputOk, AllReady, PersistStart, EngineOk, ScheduleTurn;
    if game.Ok? {
      ScheduledMembers(p.(engine := Some(game.value), phase := RoomPlaying), opts, input.now);
    }
  }

  lemma ClearedSeat(r: RoomState, s: Session, i: nat, id: int)
    requires DistinctMembers(r.members) && FindMember(r.members, s.playerID) == Some(i)
    requires r.members[i].session == Some(s) && r.members[i].connected
    ensures Who(Cleared(r, s.playerID).members, id)
         == if id == s.playerID then Some(r.members[i].(session := Some(s), connected := true, strikes := 0, autoPlay := false))
            else Who(r.members, id)
  {
    WhoSet(r.members, i, r.members[i].(strikes := 0, autoPlay := false), id);
    hide FindMember;
  }

  lemma FollowedSeat(r: RoomState, turnAction: bool, opts: Options, input: Input)
    requires EngineOk(r.engine) && r.engine.Some?
    ensures var h := Followed(r, turnAction, opts, input); h.room.members == r.members && Through(h.error)
  {
    ScheduledMembers(r, opts, input.now);
    hide EngineOk, ScheduleTurn, SettlementWritten;
  }

  lemma MovedSeat(r: RoomState, s: Session, move: Move, opts: Options, input: Input, i: nat, id: int)
    requires RoomInv(r) && EngineOk(r.engine) && InputOk(input) && FindMember(r.members, s.playerID) == Some(i)
    requires r.members[i].session == Some(s) && r.members[i].connected
    ensures var h := HandleMove(r, s, move, opts, input);
            SeatAfter(Who(r.members, id), HappensTo(r, FromPlayer(s, MoveMessage(move)), h.error, id), Who(h.room.members, id), id, opts)
  {
    assert DistinctMembers(r.members);
    hide EngineOk, InputOk, RoomInv, Inv, DistinctMembers, SeatAfter, Who, HandleMove;
    var command := CommandOf(s.playerID, move);
    if r.phase == RoomPlaying && r.engine.Some? && command.Some? {
      EngineIs(r.engine);
      var o := CommandOutcome(r.engine.value, command.value, input);
      EngineIsBack(o.game);
      StillSeated(r, s, i, command.value, input);
      MoveMembers(r, s, move, command.value, opts, input);
      Moved(r, s, move, o, opts, input, i, id);
    } else {
      MoveRefused(r, s, move, opts, input);
      SameSeat(r.members, id, opts);
      NothingMoved(r, s, move, HandleMove(r, s, move, opts, input).error, id);
    }
  }

  lemma MoveRefused(r: RoomState, s: Session, move: Move, opts: Options, input: Input)
    requires EngineOk(r.engine) && InputOk(input)
    requires r.phase != RoomPlaying || r.engine.None? || CommandOf(s.playerID, move).None?
    ensures var h := HandleMove(r, s, move, opts, input); h.room == r && !Through(h.error)
  {
    hide EngineOk, InputOk, CommandOutcome, FinishCommand, CommandOf;
  }

  lemma NothingMoved(r: RoomState, s: Session, move: Move, error: Option<RoomError>, id: int)
    requires !Through(error) || s.playerID != id || !TakesTurn(move)
    ensures HappensTo(r, FromPlayer(s, MoveMessage(move)), error, id) == Nothing
  {
  }

  /** The members after an accepted and after a refused move. */
  lemma MoveMembers(r: RoomState, s: Session, move: Move, command: Command, opts: Options, input: Input)
    requires EngineOk(r.engine) && InputOk(input) && r.phase == RoomPlaying && r.engine.Some? && Inv(r.engine.value, false)
    requires CommandOf(s.playerID, move) == Some(command)
    requires SeatOf(CommandOutcome(r.engine.value, command, input).game.players, s.playerID).Some?
    requires EngineOk(Some(CommandOutcome(r.engine.value, command, input).game))
    ensures var o, h := CommandOutcome(r.engine.value, command, input), HandleMove(r, s, move, opts, input);
            && (o.reply.Failed? ==> h.room.members == r.members && !Through(h.error))
            && (!o.reply.Failed? ==>
                  Through(h.error) && h.room.members == if TakesTurn(move) then Cleared(r, s.playerID).members else r.members)
  {
    hide EngineOk, InputOk, CommandOutcome, Followed, CommandOf, Inv, FindMember;
    var moved := r.(engine := Some(CommandOutcome(r.engine.value, command, input).game));
    FollowedSeat(moved, IsTurnAction(move), opts, input);
    ClearedOnly(moved, s.playerID);
    FollowedSeat(Cleared(moved, s.playerID), IsTurnAction(move), opts, input);
  }

  lemma Moved(r: RoomState, s: Session, move: Move, o: Outcome, opts: Options, input: Input, i: nat, id: int)
    requires EngineOk(r.engine) && InputOk(input) && DistinctMembers(r.members) && FindMember(r.members, s.playerID) == Some(i)
    requires r.members[i].session == Some(s) && r.members[i].connected
    requires var h := HandleMove(r, s, move, opts, input);
             && (o.reply.Failed? ==> h.room.members == r.members && !Through(h.error))
             && (!o.reply.Failed? ==>
                   Through(h.error) && h.room.members == if TakesTurn(move) then Cleared(r, s.playerID).members else r.members)
    ensures var h := HandleMove(r, s, move, opts, input);
            SeatAfter(Who(r.members, id), HappensTo(r, FromPlayer(s, MoveMessage(move)), h.error, id), Who(h.room.members, id), id, opts)
  {
    hide EngineOk, InputOk, HandleMove, DistinctMembers, Who, FindMember, Cleared;
    SameSeat(r.members, id, opts);
    ClearedSeat(r, s, i, id);
    SeatStill(r, s.playerID, i);
  }

  lemma ClearedOnly(r: RoomState, playerID: int)
    ensures Cleared(r, playerID).engine == r.engine
  {
  }

  lemma SeatStill(r: RoomState, playerID: int, i: nat)
    requires DistinctMembers(r.members) && FindMember(r.members, playerID) == Some(i)
    ensures Who(r.members, playerID) == Some(r.members[i])
  {
  }

  /** A member of a playing room keeps his seat at the table. */
  lemma StillSeated(r: RoomState, s: Session, i: nat, command: Command, input: Input)
    requires RoomInv(r) && r.phase == RoomPlaying && r.engine.Some? && Inv(r.engine.value, false) && InputOk(input)
    requires FindMember(r.members, s.playerID) == Some(i)
    ensures SeatOf(CommandOutcome(r.engine.value, command, input).game.players, s.playerID).Some?
  {
    var g := r.engine.value;
    InvShape(g, false);
    Runs.ApplySeats(g, command, EnvOf(input));
    assert SeatsMatch(g.players, r.members);
    assert g.players[i].id == s.playerID;
    hide Inv, EngineOk, InputOk, Apply, MembersOk, SeatsMatch;
    assert CommandOutcome(g, command, input).game.players[i].id == s.playerID;
  }

  lemma TurnEventSeat(r: RoomState, kind: TurnKind, token: nat, opts: Options, input: Input, id: int)
    requires RoomInv(r) && EngineOk(r.engine) && InputOk(input)
    ensures SeatAfter(Who(r.members, id), HappensTo(r, Timer(TurnEvent(kind, token)), None, id),
                      Who(HandleTurnEvent(r, kind, token, opts, input).members, id), id, opts)
  {
    hide Inv, InputOk, EngineOk, RoomInv, Who, DistinctMembers, Actor, HandleTurnEvent;
    SameSeat(r.members, id, opts);
    if token == r.turnToken && r.phase == RoomPlaying && r.engine.Some? {
      CurrentActs(r);
      var i := r.engine.value.currentSeat;
      ActedMembers(r, kind, opts, input, i);
      WhoIs(r.members, i);
      WhoSet(r.members, i, Struck(r.members[i], kind, opts), id);
    } else {
      StaleTurn(r, kind, token, opts, input);
    }
  }

  lemma CurrentActs(r: RoomState)
    requires RoomInv(r) && EngineOk(r.engine) && r.phase == RoomPlaying && r.engine.Some?
    ensures DistinctMembers(r.members) && Inv(r.engine.value, false)
    ensures 0 <= r.engine.value.currentSeat < |r.members| && Actor(r.members, r.engine) == Some(r.engine.value.currentSeat as nat)
  {
    ActorIsCurrent(r.members, r.engine.value);
    hide Inv, Actor, SeatsMatch;
  }

  lemma StaleTurn(r: RoomState, kind: TurnKind, token: nat, opts: Options, input: Input)
    requires EngineOk(r.engine) && InputOk(input) && (token != r.turnToken || r.phase != RoomPlaying || r.engine.None?)
    ensures HandleTurnEvent(r, kind, token, opts, input) == r
  {
    hide EngineOk, InputOk, Actor, AutoOutcome;
  }

  lemma ActedMembers(r: RoomState, kind: TurnKind, opts: Options, input: Input, i: nat)
    requires EngineOk(r.engine) && InputOk(input) && r.phase == RoomPlaying && r.engine.Some? && Inv(r.engine.value, false)
    requires Actor(r.members, r.engine) == Some(i)
    ensures i < |r.members|
    ensures HandleTurnEvent(r, kind, r.turnToken, opts, input).members == r.members[i := Struck(r.members[i], kind, opts)]
  {
    hide Inv, AutoOutcome, InputOk, EngineOk, FinishAutomated, ScheduleTurn, Actor, Struck;
    var o := AutoOutcome(r.engine.value, r.members[i].playerID, input);
    EngineIsBack(o.game);
    var acted := SetMember(r.(engine := Some(o.game)), i, Struck(r.members[i], kind, opts));
    ScheduledMembers(acted, opts, input.now);
    FinishedSeat(acted, opts, input);
  }

  lemma FinishedSeat(r: RoomState, opts: Options, input: Input)
    requires EngineOk(r.engine) && r.engine.Some?
    ensures FinishAutomated(r, opts, input).members == r.members
  {
    ScheduledMembers(r, opts, input.now);
    hide EngineOk, ScheduleTurn, SettlementWritten, SeatOf;
  }

  lemma DisconnectedSeat(r: RoomState, who: Option<Session>, opts: Options, now: int, id: int)
    requires EngineOk(r.engine) && DistinctMembers(r.members)
    ensures SeatAfter(Who(r.members, id), HappensTo(r, Disconnect(who), None, id),
                      Who(HandleDisconnect(r, who, opts, now).members, id), id, opts)
  {
    SameSeat(r.members, id, opts);
    if who.Some? {
      var i := FindMember(r.members, who.value.playerID);
      RemovedSeat(r, who.value.playerID, opts, id);
      if i.Some? {
        SeatStill(r, who.value.playerID, i.value);
        VacatedSeat(r, i.value, r.members[i.value].abandoned, opts, now, id);
      }
    }
    hide EngineOk, Vacate, RemoveMember, DistinctMembers;
  }

  lemma MessageSeat(r: RoomState, s: Session, message: Message, opts: Options, input: Input, id: int)
    requires RoomInv(r) && EngineOk(r.engine) && InputOk(input)
    ensures var h := HandleMessage(r, s, message, opts, input);
            SeatAfter(Who(r.members, id), HappensTo(r, FromPlayer(s, message), h.error, id), Who(h.room.members, id), id, opts)
  {
    assert DistinctMembers(r.members);
    SameSeat(r.members, id, opts);
    hide EngineOk, InputOk, RoomInv, HandleMove, HandleReady, HandleStart, HandleLeave, HandleKick, DistinctMembers, SeatAfter, Who;
    var i := FindMember(r.members, s.playerID);
    if i.Some? && r.members[i.value].session == Some(s) && r.members[i.value].connected {
      match message
      case ReadyMessage(ready) => ReadySeat(r, s, ready, id, opts);
      case StartMessage => StartSeat(r, s, opts, input);
      case LeaveMessage => LeftSeat(r, s, opts, input.now, i.value, id);
      case KickMessage(target) => KickSeat(r, s, target, opts, id);
      case MoveMessage(move) => MovedSeat(r, s, move, opts, input, i.value, id);
      case UnknownMessage =>
    }
  }

  lemma KickSeat(r: RoomState, s: Session, target: Option<int>, opts: Options, id: int)
    requires DistinctMembers(r.members)
    ensures var h := HandleKick(r, s, target, opts);
            SeatAfter(Who(r.members, id), HappensTo(r, FromPlayer(s, KickMessage(target)), h.error, id), Who(h.room.members, id), id, opts)
  {
    SameSeat(r.members, id, opts);
    if target.Some? {
      RemovedSeat(r, target.value, opts, id);
      KickedSeat(r, target.value);
    }
    hide RemoveMember, Who, SeatAfter, FindMember, DistinctMembers;
  }

  lemma KickedSeat(r: RoomState, target: int)
    ensures FindMember(r.members, target).Some? <==> Who(r.members, target).Some?
  {
  }

  lemma LeftSeat(r: RoomState, s: Session, opts: Options, now: int, i: nat, id: int)
    requires EngineOk(r.engine) && DistinctMembers(r.members) && FindMember(r.members, s.playerID) == Some(i)
    ensures SeatAfter(Who(r.members, id), HappensTo(r, FromPlayer(s, LeaveMessage), None, id),
                      Who(HandleLeave(r, s, opts, now).members, id), id, opts)
  {
    RemovedSeat(r, s.playerID, opts, id);
    SeatStill(r, s.playerID, i);
    VacatedSeat(r, i, true, opts, now, id);
    hide EngineOk, Vacate, RemoveMember, DistinctMembers, FindMember;
  }

  /** Every command does to every seat exactly what it means for its player: a time-out is a strike, and the last allowed one
      hands the seat to the server; coming back, or taking his turn, clears the strikes and gives it back; going away leaves
      it to the server; nothing else touches it. */
  lemma SeatStep(r: RoomState, command: RoomCommand, opts: Options, input: Input, id: int)
    requires RoomInv(r) && EngineOk(r.engine) && InputOk(input)
    ensures var h := Execute(r, command, opts, input);
            SeatAfter(Who(r.members, id), HappensTo(r, command, h.error, id), Who(h.room.members, id), id, opts)
  {
    assert DistinctMembers(r.members);
    SameSeat(r.members, id, opts);
    hide EngineOk, InputOk, RoomInv, HandleMessage, HandleTurnEvent, TryReconnect, HandleDisconnect, HasConnected, DistinctMembers,
         SeatAfter, Who, TryJoin;
    match command
    case FromPlayer(s, message) => MessageSeat(r, s, message, opts, input, id);
    case Join(s) => JoinedSeat(r, s, id, opts);
    case Disconnect(who) => DisconnectedSeat(r, who, opts, input.now, id);
    case Reconnect(who) => ReconnectedSeat(r, who, opts, input.now, id);
    case Timer(TurnEvent(kind, token)) => TurnEventSeat(r, kind, token, opts, input, id);
    case _ =>
  }

  // ----- Over whole runs -----

  /** What a step of the mailbox means for a player: the loop carries out one command at a time, nothing else matters. */
  ghost function What(m: Mailbox, step: Step, opts: Options, id: int): Happening
    requires Sane(m) && Enabled(m, step)
  {
    if step.Advance? && m.loop.Busy? then
      var command := m.accepted[m.taken - 1].command;
      HappensTo(m.room, command, Execute(m.room, command, opts, step.input).error, id)
    else Nothing
  }

  lemma StepSeat(m: Mailbox, step: Step, opts: Options, id: int)
    requires MailboxInv(m) && Sane(m) && Enabled(m, step)
    ensures SeatAfter(Who(m.room.members, id), What(m, step, opts, id), Who(Performed(m, step, opts).room.members, id), id, opts)
  {
    hide EngineOk, InputOk, RoomInv, QueueInv, MailboxInv, EventsApart, TimersOk, RecordOk, Execute, Carried, SeatAfter, Who, HappensTo;
    SameSeat(m.room.members, id, opts);
    if step.Advance? && m.loop.Busy? {
      RoomOf(m);
      CarriedMembers(m, opts, step.input, step.saved);
      SeatStep(m.room, m.accepted[m.taken - 1].command, opts, step.input, id);
    }
  }

  lemma RoomOf(m: Mailbox)
    requires MailboxInv(m) && Sane(m)
    ensures RoomInv(m.room) && EngineOk(m.room.engine) && (m.loop.Busy? ==> 0 < m.taken <= |m.accepted|)
  {
    hide RoomInv, EngineOk, EventsApart, TimersOk, RecordOk, AnswersOk, NothingBehindStop;
  }

  lemma CarriedMembers(m: Mailbox, opts: Options, input: Input, saved: bool)
    requires 0 < m.taken <= |m.accepted| && EngineOk(m.room.engine) && InputOk(input)
    ensures Carried(m, opts, input, saved).room.members
         == Execute(m.room, m.accepted[m.taken - 1].command, opts, input).room.members
  {
    hide EngineOk, InputOk, Execute, Synced;
  }

  /** The time-outs of a player since he last took his turn, came back or joined; `before` are those already counted. */
  ghost function TimeoutsSince(m: Mailbox, steps: seq<Step>, opts: Options, id: int, before: int): int
    requires Sane(m) && CanRun(m, steps, opts)
    decreases |steps|
  {
    if steps == [] then before
    else
      var count := match What(m, steps[0], opts, id)
                   case TimedOut => before + 1
                   case Returned(_) => 0
                   case Joined(_) => 0
                   case _ => before;
      TimeoutsSince(Performed(m, steps[0], opts), steps[1..], opts, id, count)
  }

  /** His strikes are these time-outs; while he is connected the server plays for him exactly from the last allowed one on. */
  ghost predicate StrikesCounted(member: Option<Member>, timeouts: int, opts: Options) {
    member.Some? ==>
      && member.value.strikes == timeouts
      && (member.value.connected ==> (member.value.autoPlay <==> timeouts >= opts.strikeLimit))
  }

  /** Over every run of one life of a room: a member's strikes are his time-outs since he last took his turn, came back or
      joined, and while he is connected the server plays for him if and only if they have reached the limit. */
  lemma {:induction false} ManagedIff(m: Mailbox, steps: seq<Step>, opts: Options, id: int, before: int)
    requires MailboxInv(m) && Sane(m) && OptionsOk(opts) && CanRun(m, steps, opts)
    requires StrikesCounted(Who(m.room.members, id), before, opts)
    ensures StrikesCounted(Who(After(m, steps, opts).room.members, id), TimeoutsSince(m, steps, opts, id, before), opts)
    decreases |steps|
  {
    hide MailboxInv, Sane, Performed, What, Who;
    if steps != [] {
      PerformedInv(m, steps[0], opts);
      StepSeat(m, steps[0], opts, id);
      var count := match What(m, steps[0], opts, id)
                   case TimedOut => before + 1
                   case Returned(_) => 0
                   case Joined(_) => 0
                   case _ => before;
      ManagedIff(Performed(m, steps[0], opts), steps[1..], opts, id, count);
    }
  }

  /** A connected member's seat is handed over at the moment of exactly the last allowed time-out. */
  lemma HandedOver(m: Mailbox, step: Step, opts: Options, id: int, before: int)
    requires MailboxInv(m) && Sane(m) && OptionsOk(opts) && Enabled(m, step) && StrikesCounted(Who(m.room.members, id), before, opts)
    requires Who(m.room.members, id).Some? && Who(m.room.members, id).value.connected && !Who(m.room.members, id).value.autoPlay
    ensures var after := Who(Performed(m, step, opts).room.members, id);
            after.Some? && after.value.connected ==>
              (after.value.autoPlay <==> What(m, step, opts, id) == TimedOut && before + 1 == opts.strikeLimit)
  {
    hide MailboxInv, Sane, Performed, What, Who, Enabled, OptionsOk;
    StepSeat(m, step, opts, id);
  }

  /** Who is there at the beginning of a life starts with a clean count: a new room, and a room just restored. */
  lemma LifeBegins(id: string, maxPlayers: int, owner: Session, opts: Options, player: int)
    requires OptionsOk(opts)
    ensures StrikesCounted(Who(NewRoom(id, maxPlayers, owner).members, player), 0, opts)
  {
  }

  lemma LifeGoesOn(m: Mailbox, now: int, opts: Options, player: int)
    requires MailboxInv(m) && OptionsOk(opts) && m.record.Some? && Who(Happen(m, Crash(now), opts).room.members, player).Some?
    ensures var back := Who(Happen(m, Crash(now), opts).room.members, player);
            StrikesCounted(back, back.value.strikes, opts)
  {
    hide MailboxInv, Happen, OptionsOk;
    CrashMembers(m, now, opts);
    OfflineAfter(m.record.value.members, m.record.value.phase, player);
  }

  lemma OfflineAfter(members: seq<MemberSnapshot>, phase: RoomPhase, player: int)
    ensures var back := Who(RestoreMembers(members, phase), player); back.Some? ==> !back.value.connected
  {
  }
}
