/** What no mailbox command touches. */
module RoomIdentity {
  import opened Wrappers
  import opened Rules
  import opened Invariant
  import opened Rooms

  /** The same room, closed exactly when it is destroyed by this command or was closed before. */
  ghost predicate SameIdentity(r: RoomState, r': RoomState) {
    && r'.id == r.id && r'.revision == r.revision && r.armed <= r'.armed
    && if r'.destroyed then r'.closing || (r'.closing == r.closing && r.destroyed) else r'.closing == r.closing && !r.destroyed
  }

  lemma IdentityThrough(a: RoomState, b: RoomState, c: RoomState)
    requires SameIdentity(a, b) && SameIdentity(b, c)
    ensures SameIdentity(a, c)
  {
  }

  lemma ScheduleTurnIdentity(r: RoomState, opts: Options, now: int)
    requires EngineOk(r.engine)
    ensures SameIdentity(r, ScheduleTurn(r, opts, now))
  {
    hide EngineOk, Actor;
  }

  lemma RemoveMemberIdentity(r: RoomState, playerID: int, opts: Options)
    ensures SameIdentity(r, RemoveMember(r, playerID, opts))
  {
    hide HasConnected, RemoveAt, FindMember;
  }

  lemma VacateIdentity(r: RoomState, i: nat, abandoned: bool, opts: Options, now: int)
    requires EngineOk(r.engine) && i < |r.members|
    ensures SameIdentity(r, Vacate(r, i, abandoned, opts, now))
  {
    var m := r.members[i].(session := None, connected := false, autoPlay := true, abandoned := abandoned);
    var watched := ScheduleEmpty(SetMember(r, i, m), opts);
    assert watched.engine == r.engine && SameIdentity(r, watched);
    ScheduleTurnIdentity(watched, opts, now);
    hide EngineOk, Actor, ScheduleTurn, ScheduleEmpty, SameIdentity, IsActor, HasConnected;
    IdentityThrough(r, watched, ScheduleTurn(watched, opts, now));
  }

  lemma HandleDisconnectIdentity(r: RoomState, who: Option<Session>, opts: Options, now: int)
    requires EngineOk(r.engine)
    ensures SameIdentity(r, HandleDisconnect(r, who, opts, now))
  {
    assert SameIdentity(r, r);
    if who.Some? {
      RemoveMemberIdentity(r, who.value.playerID, opts);
      var i := FindMember(r.members, who.value.playerID);
      if i.Some? {
        VacateIdentity(r, i.value, r.members[i.value].abandoned, opts, now);
      }
    }
    hide EngineOk, SameIdentity, Vacate, RemoveMember;
  }

  lemma TryReconnectIdentity(r: RoomState, who: Option<Session>, opts: Options, now: int)
    requires EngineOk(r.engine)
    ensures SameIdentity(r, TryReconnect(r, who, opts, now).room)
  {
    assert SameIdentity(r, r);
    if who.Some? {
      var i := FindMember(r.members, who.value.playerID);
      if i.Some? {
        var m := r.members[i.value].(session := who, connected := true, autoPlay := false, strikes := 0);
        var back := CancelEmpty(SetMember(r, i.value, m));
        assert SameIdentity(r, back) && back.engine == r.engine;
        ScheduleTurnIdentity(back, opts, now);
        hide EngineOk, SameIdentity, ScheduleTurn, IsActor;
        IdentityThrough(r, back, ScheduleTurn(back, opts, now));
      }
    }
    hide EngineOk, SameIdentity, ScheduleTurn, IsActor;
  }

  lemma HandleLeaveIdentity(r: RoomState, s: Session, opts: Options, now: int)
    requires EngineOk(r.engine)
    ensures SameIdentity(r, HandleLeave(r, s, opts, now))
  {
    assert SameIdentity(r, r);
    RemoveMemberIdentity(r, s.playerID, opts);
    var i := FindMember(r.members, s.playerID);
    if i.Some? {
      VacateIdentity(r, i.value, true, opts, now);
    }
    hide EngineOk, SameIdentity, Vacate, RemoveMember;
  }

  lemma PersistStartIdentity(r: RoomState, opts: Options, input: Input)
    ensures SameIdentity(r, PersistStart(r, opts, input).room)
  {
  }

  lemma HandleStartIdentity(r: RoomState, s: Session, opts: Options, input: Input)
    requires InputOk(input)
    ensures SameIdentity(r, HandleStart(r, s, opts, input).room)
  {
    var h := HandleStart(r, s, opts, input).room;
    var game := Setup.NewGame(MemberIDs(r.members), 0, input.dealing);
    Setup.NewGameInv(MemberIDs(r.members), 0, input.dealing);
    var p := PersistStart(r, opts, input).room;
    UntouchedIdentity(r);
    PersistStartIdentity(r, opts, input);
    hide Setup.NewGame, InputOk, AllReady, PersistStart, ScheduleTurn, Inv;
    if game.Ok? {
      var started := p.(engine := Some(game.value), phase := RoomPlaying);
      assert SameIdentity(p, started);
      ScheduleTurnIdentity(started, opts, input.now);
      hide SameIdentity, EngineOk;
      IdentityThrough(r, p, started);
      IdentityThrough(r, started, ScheduleTurn(started, opts, input.now));
    }
    hide SameIdentity, EngineOk;
  }

  lemma SettlementIdentity(r: RoomState, opts: Options, input: Input)
    ensures SameIdentity(r, PersistSettlement(CancelTurn(r.(phase := RoomSettled)), opts, input).room)
  {
  }

  lemma ClearedIdentity(r: RoomState, playerID: int)
    ensures SameIdentity(r, Cleared(r, playerID))
  {
  }

  lemma FollowedIdentity(r: RoomState, turnAction: bool, opts: Options, input: Input)
    requires EngineOk(r.engine) && r.engine.Some?
    ensures SameIdentity(r, Followed(r, turnAction, opts, input).room)
  {
    hide EngineOk, ScheduleTurn, SameIdentity, PersistSettlement, CancelTurn;
    UntouchedIdentity(r);
    SettlementIdentity(r, opts, input);
    ScheduleTurnIdentity(r, opts, input.now);
  }

  lemma FinishCommandIdentity(r: RoomState, playerID: int, turnAction: bool, opts: Options, input: Input)
    requires EngineOk(r.engine) && r.engine.Some?
    ensures SameIdentity(r, FinishCommand(r, playerID, turnAction, opts, input).room)
  {
    hide SameIdentity, Followed;
    var back := if turnAction then Cleared(r, playerID) else r;
    UntouchedIdentity(r);
    ClearedIdentity(r, playerID);
    assert back.engine == r.engine;
    hide EngineOk, Cleared;
    FollowedIdentity(back, turnAction, opts, input);
    IdentityThrough(r, back, Followed(back, turnAction, opts, input).room);
  }

  lemma MovedIdentity(r: RoomState, moved: RoomState, r': RoomState)
    requires moved == r.(engine := moved.engine) && SameIdentity(moved, r')
    ensures SameIdentity(r, r')
  {
  }

  lemma UntouchedIdentity(r: RoomState)
    ensures SameIdentity(r, r)
  {
  }

  lemma HandleMoveIdentity(r: RoomState, s: Session, move: Move, opts: Options, input: Input)
    requires EngineOk(r.engine) && InputOk(input)
    ensures SameIdentity(r, HandleMove(r, s, move, opts, input).room)
  {
    hide SameIdentity, CommandOutcome, FinishCommand, InputOk, CommandOf, IsTurnAction, Inv;
    var command := CommandOf(s.playerID, move);
    UntouchedIdentity(r);
    if r.phase == RoomPlaying && r.engine.Some? && command.Some? {
      var o := CommandOutcome(r.engine.value, command.value, input);
      var moved := r.(engine := Some(o.game));
      UntouchedIdentity(moved);
      MovedIdentity(r, moved, moved);
      FinishCommandIdentity(moved, s.playerID, IsTurnAction(move), opts, input);
      MovedIdentity(r, moved, FinishCommand(moved, s.playerID, IsTurnAction(move), opts, input).room);
    }
  }

  lemma HandleMessageIdentity(r: RoomState, s: Session, message: Message, opts: Options, input: Input)
    requires EngineOk(r.engine) && InputOk(input)
    ensures SameIdentity(r, HandleMessage(r, s, message, opts, input).room)
  {
    assert SameIdentity(r, r);
    match message
    case ReadyMessage(ready) =>
      assert SameIdentity(r, HandleReady(r, s, ready).room);
      hide HandleReady, SameIdentity, EngineOk, InputOk, FindMember;
    case StartMessage => HandleStartIdentity(r, s, opts, input); hide HandleStart, SameIdentity, EngineOk, InputOk;
    case LeaveMessage => HandleLeaveIdentity(r, s, opts, input.now); hide HandleLeave, SameIdentity, EngineOk, InputOk;
    case KickMessage(target) =>
      if target.Some? { RemoveMemberIdentity(r, target.value, opts); }
      hide RemoveMember, SameIdentity, EngineOk, InputOk;
    case MoveMessage(move) => HandleMoveIdentity(r, s, move, opts, input); hide HandleMove, SameIdentity, EngineOk, InputOk;
    case UnknownMessage => hide SameIdentity, EngineOk, InputOk;
  }

  lemma FinishAutomatedIdentity(r: RoomState, opts: Options, input: Input)
    requires EngineOk(r.engine) && r.engine.Some?
    ensures SameIdentity(r, FinishAutomated(r, opts, input))
  {
    assert SameIdentity(r, r);
    SettlementIdentity(r, opts, input);
    ScheduleTurnIdentity(r, opts, input.now);
    hide EngineOk, ScheduleTurn, SameIdentity, PersistSettlement, CancelTurn;
  }

  lemma StruckIdentity(r: RoomState, i: nat, g: Game, kind: TurnKind, opts: Options)
    requires i < |r.members|
    ensures SameIdentity(r, SetMember(r.(engine := Some(g)), i, Struck(r.members[i], kind, opts)))
  {
  }

  lemma HandleTurnEventIdentity(r: RoomState, kind: TurnKind, token: nat, opts: Options, input: Input)
    requires EngineOk(r.engine) && InputOk(input)
    ensures SameIdentity(r, HandleTurnEvent(r, kind, token, opts, input))
  {
    hide Inv, AutoOutcome, SameIdentity, ScheduleTurn, FinishAutomated, Struck, InputOk, Actor;
    UntouchedIdentity(r);
    if token == r.turnToken && r.phase == RoomPlaying && r.engine.Some? && Actor(r.members, r.engine).Some? {
      var i := Actor(r.members, r.engine).value;
      var o := AutoOutcome(r.engine.value, r.members[i].playerID, input);
      var acted := SetMember(r.(engine := Some(o.game)), i, Struck(r.members[i], kind, opts));
      StruckIdentity(r, i, o.game, kind, opts);
      ScheduleTurnIdentity(acted, opts, input.now);
      FinishAutomatedIdentity(acted, opts, input);
      IdentityThrough(r, acted, ScheduleTurn(acted, opts, input.now));
      IdentityThrough(r, acted, FinishAutomated(acted, opts, input));
    }
  }

  lemma EmptyIdentity(r: RoomState, token: nat, opts: Options)
    ensures SameIdentity(r, HandleEmptyEvent(r, token)) && SameIdentity(r, ScheduleEmpty(r, opts))
    ensures SameIdentity(r, CancelEmpty(CancelTurn(r)))
  {
    hide HasConnected;
  }

  lemma TryJoinIdentity(r: RoomState, s: Session)
    ensures SameIdentity(r, TryJoin(r, s).room)
  {
    hide FindMember;
  }

  /** A command keeps the room's name, only ever adds timers, and closes the mailbox exactly when it destroys the room. */
  lemma ExecuteIdentity(r: RoomState, command: RoomCommand, opts: Options, input: Input)
    requires EngineOk(r.engine) && InputOk(input)
    ensures SameIdentity(r, Execute(r, command, opts, input).room)
  {
    hide SameIdentity, EngineOk, InputOk, HandleMessage, TryJoin, HandleDisconnect, TryReconnect, HandleTurnEvent,
         HandleEmptyEvent, ScheduleEmpty, CancelEmpty, CancelTurn;
    match command
    case FromPlayer(s, message) => HandleMessageIdentity(r, s, message, opts, input);
    case Join(s) => TryJoinIdentity(r, s);
    case Disconnect(who) => HandleDisconnectIdentity(r, who, opts, input.now);
    case Reconnect(who) => TryReconnectIdentity(r, who, opts, input.now);
    case Timer(TurnEvent(kind, token)) => HandleTurnEventIdentity(r, kind, token, opts, input);
    case Timer(EmptyEvent(token)) => EmptyIdentity(r, token, opts);
    case _ => EmptyIdentity(r, 0, opts);
  }
}
