/** When a room accepts a command, and what it then does, said without the functions that do it. */
module RoomCommands {
  import opened Wrappers
  import opened Rules
  import opened Invariant
  import opened Rooms
  import opened RoomInvariant
  import opened RoomPromises
  import Openings

  ghost predicate Belongs(r: RoomState, id: int) { exists i :: 0 <= i < |r.members| && r.members[i].playerID == id }

  /** The connection its member is heard on. */
  ghost predicate Heard(r: RoomState, s: Session) {
    exists i :: 0 <= i < |r.members| && r.members[i].playerID == s.playerID && r.members[i].session == Some(s) && r.members[i].connected
  }

  // ----- Before the round -----

  /** Joining: while the room waits, has a free place, and does not know the player. A refusal changes nothing. */
  lemma JoinReplies(r: RoomState, s: Session)
    ensures var h := TryJoin(r, s);
            && (h.error == None <==> r.phase == RoomWaiting && !Belongs(r, s.playerID) && |r.members| < r.maxPlayers)
            && (h.error == Some(AlreadyPlaying) <==> r.phase != RoomWaiting)
            && (h.error == Some(AlreadyInRoom) <==> r.phase == RoomWaiting && Belongs(r, s.playerID))
            && (h.error == Some(RoomFull) <==> r.phase == RoomWaiting && !Belongs(r, s.playerID) && |r.members| >= r.maxPlayers)
            && (h.error.Some? ==> h.room == r)
            && (h.error.None? ==> |h.room.members| == |r.members| + 1 && h.room.members[..|r.members|] == r.members)
  {
  }

  /** A message is heard from the connection its member is bound to, and from no other. */
  lemma MessageReplies(r: RoomState, s: Session, message: Message, opts: Options, input: Input)
    requires RoomInv(r) && EngineOk(r.engine) && InputOk(input)
    ensures var h := HandleMessage(r, s, message, opts, input);
            && (!Heard(r, s) ==> h == Handled(r, Some(NotInRoom)))
            && (Heard(r, s) && message.UnknownMessage? ==> h == Handled(r, Some(InvalidArgument)))
            && (Heard(r, s) && message.ReadyMessage? ==> h == HandleReady(r, s, message.ready))
            && (Heard(r, s) && message.StartMessage? ==> h == HandleStart(r, s, opts, input))
            && (Heard(r, s) && message.KickMessage? ==> h == HandleKick(r, s, message.target, opts))
            && (Heard(r, s) && message.LeaveMessage? ==> h == Handled(HandleLeave(r, s, opts, input.now), None))
            && (Heard(r, s) && message.MoveMessage? ==> h == HandleMove(r, s, message.move, opts, input))
  {
    assert DistinctMembers(r.members);
    hide RoomInv, EngineOk, InputOk, HandleMove, HandleReady, HandleStart, HandleKick, HandleLeave;
    if i :| 0 <= i < |r.members| && r.members[i].playerID == s.playerID && r.members[i].session == Some(s) && r.members[i].connected {
      assert FindMember(r.members, s.playerID) == Some(i);
    }
  }

  /** Readiness: a member says whether he is ready; the owner always is. */
  lemma ReadyReplies(r: RoomState, s: Session, ready: Option<bool>, i: nat)
    requires DistinctMembers(r.members) && i < |r.members| && r.members[i].playerID == s.playerID
    ensures var h := HandleReady(r, s, ready);
            && (h.error == None <==> r.phase == RoomWaiting && ready.Some?)
            && (h.error == Some(AlreadyPlaying) <==> r.phase != RoomWaiting)
            && (h.error == Some(InvalidArgument) <==> r.phase == RoomWaiting && ready.None?)
            && (h.error.Some? ==> h.room == r)
            && (h.error.None? ==>
                  && h.room.members[i].ready == (s.playerID == r.ownerID || ready == Some(true))
                  && h.room == r.(members := r.members[i := r.members[i].(ready := h.room.members[i].ready)]))
  {
    assert FindMember(r.members, s.playerID) == Some(i);
  }

  /** The owner may send somebody else away before the round, and nobody else may. */
  lemma KickReplies(r: RoomState, s: Session, target: Option<int>, opts: Options)
    ensures var h := HandleKick(r, s, target, opts);
            && (h.error == None <==>
                  s.playerID == r.ownerID && r.phase == RoomWaiting && target.Some? && target.value != 0
                  && target.value != r.ownerID && Belongs(r, target.value))
            && (h.error == Some(NotOwner) <==> s.playerID != r.ownerID)
            && (h.error == Some(AlreadyPlaying) <==> s.playerID == r.ownerID && r.phase != RoomWaiting)
            && (h.error.Some? ==> h.room == r)
  {
    hide RemoveMember;
  }

  /** What a round needs to start: the owner's word, a waiting room, two members or more, all ready. */
  predicate MayStart(r: RoomState, s: Session) {
    && s.playerID == r.ownerID && r.phase == RoomWaiting && |r.members| >= 2
    && forall i :: 0 <= i < |r.members| ==> r.members[i].ready
  }

  /** Starting: whether the round begins, and how. The members sit at the table in their order, the first one deals; with a
      match store the match is written first, under a new id and this moment. */
  lemma StartReplies(r: RoomState, s: Session, opts: Options, input: Input)
    requires EngineOk(r.engine) && InputOk(input)
    ensures var h := HandleStart(r, s, opts, input);
            && (h.error == Some(NotOwner) <==> s.playerID != r.ownerID)
            && (h.error == Some(AlreadyPlaying) <==> s.playerID == r.ownerID && r.phase != RoomWaiting)
            && (h.error == Some(NotReady) <==> s.playerID == r.ownerID && r.phase == RoomWaiting && !MayStart(r, s))
            && (h.error == None ==> MayStart(r, s) && StartedRound(r, h.room, opts, input))
            && (h.error == Some(StoreFailed) ==> opts.hasMatches && (input.ids(0).Err? || !input.stored))
            && (MayStart(r, s) && Setup.NewGame(MemberIDs(r.members), 0, input.dealing).Ok? && (opts.hasMatches ==> input.ids(0).Ok? && input.stored) ==>
                  h.error == None)
            && (h.error.Some? ==> h.room.engine == r.engine && h.room.phase == r.phase && h.room.members == r.members)
  {
    DealtEngine(MemberIDs(r.members), input.dealing);
    hide EngineOk, InputOk, PersistStart, ScheduleTurn, Setup.NewGame, StartedRound, AllReady;
    AllAreReady(r.members);
    Persisted(r, opts, input);
    var game := Setup.NewGame(MemberIDs(r.members), 0, input.dealing);
    if MayStart(r, s) && game.Ok? && PersistStart(r, opts, input).error.None? {
      StartsRound(r, opts, input, game.value);
    }
  }

  lemma AllAreReady(members: seq<Member>)
    ensures AllReady(members) <==> forall i :: 0 <= i < |members| ==> members[i].ready
  {
  }

  lemma Persisted(r: RoomState, opts: Options, input: Input)
    ensures var p := PersistStart(r, opts, input);
            && p.room == r.(matchID := p.room.matchID, matchStartedAt := p.room.matchStartedAt, matchSettled := false)
            && (p.error == None || p.error == Some(StoreFailed))
            && (p.error.Some? <==> opts.hasMatches && (input.ids(0).Err? || !input.stored))
            && (p.error.None? ==> if opts.hasMatches then p.room.matchID == input.ids(0).value && p.room.matchStartedAt == input.now
                                  else p.room.matchID == 0 && p.room.matchStartedAt == ZERO_TIME)
  {
  }

  /** The round that begins. */
  ghost predicate StartedRound(r: RoomState, h: RoomState, opts: Options, input: Input) {
    && h.phase == RoomPlaying && h.engine.Some? && h.members == r.members && !h.matchSettled
    && (if opts.hasMatches then input.ids(0) == Ok(h.matchID) && h.matchStartedAt == input.now && input.stored else h.matchID == 0)
    && var g := h.engine.value;
       && SeatsMatch(g.players, r.members) && |g.discardPile| > 0
       && Openings.Begins(g, |r.members|, 0, Top(g)) && Openings.LaidOut(g, |r.members|, 0, Top(g))
  }

  lemma StartsRound(r: RoomState, opts: Options, input: Input, g: Game)
    requires InputOk(input) && Setup.NewGame(MemberIDs(r.members), 0, input.dealing) == Ok(g) && PersistStart(r, opts, input).error.None?
    requires EngineOk(Some(g))
    ensures StartedRound(r, ScheduleTurn(PersistStart(r, opts, input).room.(engine := Some(g), phase := RoomPlaying), opts, input.now),
                         opts, input)
  {
    Persisted(r, opts, input);
    var ids := MemberIDs(r.members);
    Openings.NewGameBegins(ids, 0, input.dealing);
    Setup.NewGameInv(ids, 0, input.dealing);
    hide EngineOk, InputOk, PersistStart, ScheduleTurn, Setup.NewGame, Openings.Begins, Openings.LaidOut, Inv;
    var started := PersistStart(r, opts, input).room.(engine := Some(g), phase := RoomPlaying);
    ScheduledMembers(started, opts, input.now);
    ScheduledMatch(started, opts, input.now);
  }

  lemma ScheduledMatch(r: RoomState, opts: Options, now: int)
    requires EngineOk(r.engine)
    ensures var s := ScheduleTurn(r, opts, now); s.matchID == r.matchID && s.matchStartedAt == r.matchStartedAt
  {
    hide EngineOk, Actor;
  }

  // ----- Moves -----

  /** The move by which a player gives a command. */
  function MoveFor(command: Command): Move {
    match command
    case Play(_, cardID, sayUNO) => PlayMove(Some(cardID), sayUNO)
    case ChooseColor(_, color) => ColorMove(Some(color))
    case Draw(_) => DrawMove
    case Pass(_) => PassMove
    case CallUNO(_) => CallMove
    case CatchUNO(_, target) => CatchMove(Some(target))
    case ExpireUNO => PassMove
  }

  /** The player who gives it. */
  function GivenBy(command: Command): int {
    match command
    case Play(id, _, _) => id
    case ChooseColor(id, _) => id
    case Draw(id) => id
    case Pass(id) => id
    case CallUNO(id) => id
    case CatchUNO(id, _) => id
    case ExpireUNO => 0
  }

  predicate WellFormed(command: Command) {
    && !command.ExpireUNO? && (command.Play? ==> command.cardID != 0) && (command.CatchUNO? ==> command.targetID > 0)
  }

  /** Every command of a player reaches the engine as he gave it; the reply is the engine's; what cannot be read, and
      whatever comes outside a round, changes nothing. */
  lemma MoveReplies(r: RoomState, s: Session, command: Command, opts: Options, input: Input)
    requires RoomInv(r) && EngineOk(r.engine) && InputOk(input) && Belongs(r, s.playerID)
    requires WellFormed(command) && GivenBy(command) == s.playerID
    ensures var h := HandleMove(r, s, MoveFor(command), opts, input);
            && (r.phase != RoomPlaying ==> h == Handled(r, Some(Refused(GameNotPlaying))))
            && (r.phase == RoomPlaying ==>
                  && r.engine.Some? && Shape(r.engine.value)
                  && var o := Apply(r.engine.value, command, EnvOf(input));
                     && h.room.engine == Some(o.game)
                     && (forall e :: h.error == Some(Refused(e)) <==> o.reply == Failed(e))
                     && (!o.reply.Failed? ==> h.error == None || h.error == Some(StoreFailed)))
  {
    if r.phase == RoomPlaying {
      assert r.engine.Some? && Inv(r.engine.value, false);
      InvShape(r.engine.value, false);
      var o := CommandOutcome(r.engine.value, command, input);
      SeatKept(r, s.playerID, command, input);
      MoveIs(command);
      hide RoomInv, EngineOk, InputOk, Inv, Apply, CommandOf, MoveFor, CommandOutcome;
      MovedReply(r, s, MoveFor(command), command, opts, input);
    } else {
      hide RoomInv, EngineOk, InputOk, CommandOutcome;
    }
  }

  lemma MoveIs(command: Command)
    requires WellFormed(command)
    ensures CommandOf(GivenBy(command), MoveFor(command)) == Some(command)
  {
  }

  lemma SeatKept(r: RoomState, id: int, command: Command, input: Input)
    requires RoomInv(r) && r.phase == RoomPlaying && r.engine.Some? && Inv(r.engine.value, false) && InputOk(input) && Belongs(r, id)
    ensures SeatOf(CommandOutcome(r.engine.value, command, input).game.players, id).Some?
    ensures EngineOk(Some(CommandOutcome(r.engine.value, command, input).game))
  {
    var g := r.engine.value;
    InvShape(g, false);
    Runs.ApplySeats(g, command, EnvOf(input));
    var i :| 0 <= i < |r.members| && r.members[i].playerID == id;
    assert SeatsMatch(g.players, r.members);
    assert g.players[i].id == id;
    hide Inv, InputOk, Apply, MembersOk, SeatsMatch;
    assert CommandOutcome(g, command, input).game.players[i].id == id;
  }

  lemma MovedReply(r: RoomState, s: Session, move: Move, command: Command, opts: Options, input: Input)
    requires EngineOk(r.engine) && InputOk(input) && r.phase == RoomPlaying && r.engine.Some? && Inv(r.engine.value, false)
    requires CommandOf(s.playerID, move) == Some(command)
    requires SeatOf(CommandOutcome(r.engine.value, command, input).game.players, s.playerID).Some?
    requires EngineOk(Some(CommandOutcome(r.engine.value, command, input).game))
    ensures var o, h := CommandOutcome(r.engine.value, command, input), HandleMove(r, s, move, opts, input);
            && h.room.engine == Some(o.game)
            && (o.reply.Failed? ==> h.error == Some(Refused(o.reply.error)))
            && (!o.reply.Failed? ==> h.error == None || h.error == Some(StoreFailed))
  {
    hide EngineOk, InputOk, CommandOutcome, CommandOf, Inv, FindMember, ScheduleTurn, SettlementWritten, SeatOf;
  }

  /** A move that cannot be read is refused before the engine hears of it. */
  lemma UnreadableMove(r: RoomState, s: Session, move: Move, opts: Options, input: Input)
    requires EngineOk(r.engine) && InputOk(input) && r.phase == RoomPlaying && r.engine.Some?
    requires match move
             case PlayMove(cardID, _) => cardID == None || cardID == Some(0)
             case ColorMove(color) => color == None
             case CatchMove(target) => target.None? || target.value <= 0
             case _ => false
    ensures HandleMove(r, s, move, opts, input) == Handled(r, Some(InvalidArgument))
  {
    hide EngineOk, InputOk, CommandOutcome, FinishCommand;
  }

  // ----- Deadlines -----

  /** The turn timer and its deadline are as they were, or belong to a turn that begins now: a managed turn after the short
      delay, a player's own after the long one; or no timer runs. */
  ghost predicate Clocked(r: RoomState, r': RoomState, opts: Options, now: int) {
    if r'.turnToken == r.turnToken then r'.turnDeadline == r.turnDeadline && r'.turnTimer == r.turnTimer
    else
      || (r'.turnTimer == None && r'.turnDeadline == ZERO_TIME)
      || (r'.turnTimer == Some(TurnEvent(AutoPlayTurn, r'.turnToken)) && r'.turnDeadline == now + opts.managedDelay)
      || (r'.turnTimer == Some(TurnEvent(TurnTimeout, r'.turnToken)) && r'.turnDeadline == now + opts.turnTimeout)
  }

  ghost predicate SameClock(r: RoomState, r': RoomState) {
    r'.turnToken == r.turnToken && r'.turnDeadline == r.turnDeadline && r'.turnTimer == r.turnTimer
  }

  lemma ScheduledClock(r0: RoomState, r: RoomState, opts: Options, now: int)
    requires EngineOk(r.engine) && SameClock(r0, r)
    ensures Clocked(r0, ScheduleTurn(r, opts, now), opts, now)
  {
    hide EngineOk, Actor;
  }

  lemma CancelledClock(r0: RoomState, r: RoomState, opts: Options, now: int)
    requires SameClock(r0, r)
    ensures Clocked(r0, CancelTurn(r), opts, now)
  {
  }

  lemma RemovedClock(r: RoomState, playerID: int, opts: Options, now: int)
    ensures Clocked(r, RemoveMember(r, playerID, opts), opts, now)
  {
    hide HasConnected, FindMember, RemoveAt;
  }

  lemma VacatedClock(r: RoomState, i: nat, abandoned: bool, opts: Options, now: int)
    requires EngineOk(r.engine) && i < |r.members|
    ensures Clocked(r, Vacate(r, i, abandoned, opts, now), opts, now)
  {
    var m := r.members[i].(session := None, connected := false, autoPlay := true, abandoned := abandoned);
    var watched := ScheduleEmpty(SetMember(r, i, m), opts);
    assert SameClock(r, watched) && watched.engine == r.engine;
    ScheduledClock(r, watched, opts, now);
    hide EngineOk, Actor, HasConnected, ScheduleTurn, IsActor;
  }

  lemma ReconnectedClock(r: RoomState, who: Option<Session>, opts: Options, now: int)
    requires EngineOk(r.engine)
    ensures Clocked(r, TryReconnect(r, who, opts, now).room, opts, now)
  {
    if who.Some? {
      var i := FindMember(r.members, who.value.playerID);
      if i.Some? {
        var m := r.members[i.value].(session := who, connected := true, autoPlay := false, strikes := 0);
        ScheduledClock(r, CancelEmpty(SetMember(r, i.value, m)), opts, now);
      }
    }
    hide EngineOk, Actor, ScheduleTurn, IsActor, FindMember;
  }

  lemma StartedClock(r: RoomState, s: Session, opts: Options, input: Input)
    requires InputOk(input)
    ensures Clocked(r, HandleStart(r, s, opts, input).room, opts, input.now)
  {
    DealtEngine(MemberIDs(r.members), input.dealing);
    hide Setup.NewGame, InputOk, AllReady, PersistStart, EngineOk, ScheduleTurn;
    Persisted(r, opts, input);
    var game := Setup.NewGame(MemberIDs(r.members), 0, input.dealing);
    if game.Ok? {
      ScheduledClock(r, PersistStart(r, opts, input).room.(engine := Some(game.value), phase := RoomPlaying), opts, input.now);
    }
  }

  lemma FollowedClock(r0: RoomState, r: RoomState, turnAction: bool, opts: Options, input: Input)
    requires EngineOk(r.engine) && r.engine.Some? && SameClock(r0, r)
    ensures Clocked(r0, Followed(r, turnAction, opts, input).room, opts, input.now)
  {
    ScheduledClock(r0, r, opts, input.now);
    CancelledClock(r0, r.(phase := RoomSettled), opts, input.now);
    hide EngineOk, ScheduleTurn, SettlementWritten, CancelTurn;
  }

  lemma ClearedClock(r: RoomState, playerID: int)
    ensures SameClock(r, Cleared(r, playerID)) && Cleared(r, playerID).engine == r.engine
  {
  }

  lemma MovedClock(r: RoomState, s: Session, move: Move, opts: Options, input: Input)
    requires EngineOk(r.engine) && InputOk(input)
    ensures Clocked(r, HandleMove(r, s, move, opts, input).room, opts, input.now)
  {
    hide EngineOk, InputOk, CommandOutcome, Followed, CommandOf, Inv, FindMember, Cleared;
    var command := CommandOf(s.playerID, move);
    if r.phase == RoomPlaying && r.engine.Some? && command.Some? {
      EngineIs(r.engine);
      var o := CommandOutcome(r.engine.value, command.value, input);
      EngineIsBack(o.game);
      var moved := r.(engine := Some(o.game));
      FollowedClock(r, moved, IsTurnAction(move), opts, input);
      ClearedClock(moved, s.playerID);
      FollowedClock(r, Cleared(moved, s.playerID), IsTurnAction(move), opts, input);
    }
  }

  lemma FinishedClock(r0: RoomState, r: RoomState, opts: Options, input: Input)
    requires EngineOk(r.engine) && r.engine.Some? && SameClock(r0, r)
    ensures Clocked(r0, FinishAutomated(r, opts, input), opts, input.now)
  {
    ScheduledClock(r0, r, opts, input.now);
    CancelledClock(r0, r.(phase := RoomSettled), opts, input.now);
    hide EngineOk, ScheduleTurn, SettlementWritten, CancelTurn, SeatOf;
  }

  lemma TurnEventClock(r: RoomState, kind: TurnKind, token: nat, opts: Options, input: Input)
    requires EngineOk(r.engine) && InputOk(input)
    ensures Clocked(r, HandleTurnEvent(r, kind, token, opts, input), opts, input.now)
  {
    hide Inv, AutoOutcome, InputOk, Actor, EngineOk, FinishAutomated, ScheduleTurn, Struck;
    if token == r.turnToken && r.phase == RoomPlaying && r.engine.Some? && Actor(r.members, r.engine).Some? {
      var i := Actor(r.members, r.engine).value;
      EngineIs(r.engine);
      var o := AutoOutcome(r.engine.value, r.members[i].playerID, input);
      EngineIsBack(o.game);
      var acted := SetMember(r.(engine := Some(o.game)), i, Struck(r.members[i], kind, opts));
      ScheduledClock(r, acted, opts, input.now);
      FinishedClock(r, acted, opts, input);
    }
  }

  lemma MessageClock(r: RoomState, s: Session, message: Message, opts: Options, input: Input)
    requires EngineOk(r.engine) && InputOk(input)
    ensures Clocked(r, HandleMessage(r, s, message, opts, input).room, opts, input.now)
  {
    hide EngineOk, InputOk, HandleMove, HandleStart, Vacate, RemoveMember, Actor, Clocked;
    assert Clocked(r, r, opts, input.now) && Clocked(r, HandleReady(r, s, if message.ReadyMessage? then message.ready else None).room, opts, input.now)
      by { SameReady(r, s, if message.ReadyMessage? then message.ready else None, opts, input.now); }
    match message
    case StartMessage => StartedClock(r, s, opts, input);
    case MoveMessage(move) => MovedClock(r, s, move, opts, input);
    case LeaveMessage =>
      RemovedClock(r, s.playerID, opts, input.now);
      var i := FindMember(r.members, s.playerID);
      if i.Some? { VacatedClock(r, i.value, true, opts, input.now); }
    case KickMessage(target) => if target.Some? { RemovedClock(r, target.value, opts, input.now); }
    case _ =>
  }

  lemma SameReady(r: RoomState, s: Session, ready: Option<bool>, opts: Options, now: int)
    ensures Clocked(r, r, opts, now) && Clocked(r, HandleReady(r, s, ready).room, opts, now)
  {
  }

  /** No command but a stop touches the clock otherwise: it is left alone, stopped, or set for a turn that begins now. */
  lemma DeadlineStep(r: RoomState, command: RoomCommand, opts: Options, input: Input)
    requires EngineOk(r.engine) && InputOk(input)
    ensures Clocked(r, Execute(r, command, opts, input).room, opts, input.now)
  {
    hide EngineOk, InputOk, HandleMessage, HandleTurnEvent, TryReconnect, HasConnected, Vacate, RemoveMember;
    match command
    case FromPlayer(s, message) => MessageClock(r, s, message, opts, input);
    case Disconnect(who) =>
      if who.Some? {
        RemovedClock(r, who.value.playerID, opts, input.now);
        var i := FindMember(r.members, who.value.playerID);
        if i.Some? { VacatedClock(r, i.value, r.members[i.value].abandoned, opts, input.now); }
      }
    case Reconnect(who) => ReconnectedClock(r, who, opts, input.now);
    case Timer(TurnEvent(kind, token)) => TurnEventClock(r, kind, token, opts, input);
    case _ =>
  }

  // ----- A room begins and ends -----

  /** A new room waits, with its owner alone in it, ready and connected; two to six seats are as asked, otherwise four. */
  lemma NewRoomMeans(id: string, maxPlayers: int, owner: Session)
    ensures var r := NewRoom(id, maxPlayers, owner);
            && r.id == id && r.ownerID == owner.playerID && r.phase == RoomWaiting && r.engine == None
            && r.maxPlayers == (if 2 <= maxPlayers <= 6 then maxPlayers else 4)
            && r.members == [Member(owner.playerID, owner.nickname, true, true, false, 0, Some(owner), false)]
            && Heard(r, owner) && !r.destroyed && !r.closing
  {
    assert NewRoom(id, maxPlayers, owner).members[0].session == Some(owner);
  }

  ghost predicate NobodyThere(r: RoomState) {
    forall i :: 0 <= i < |r.members| ==> !(r.members[i].connected && r.members[i].session.Some?)
  }

  /** A collection event ends the room exactly if it is the current one and nobody is connected; otherwise nothing happens. */
  lemma CollectMeans(r: RoomState, token: nat)
    ensures var r' := HandleEmptyEvent(r, token);
            && (r'.destroyed <==> r.destroyed || (token == r.emptyToken && NobodyThere(r)))
            && (r'.destroyed == r.destroyed ==> r' == r)
            && (r'.destroyed && !r.destroyed ==>
                  r'.closing && r'.turnTimer == None && r'.emptyTimer == None && r'.members == r.members && r'.engine == r.engine)
  {
  }

  /** A stop stops both timers and makes every event of theirs stale; nothing else about the room is different. */
  lemma StopMeans(r: RoomState, opts: Options, input: Input)
    requires EngineOk(r.engine) && InputOk(input)
    ensures var h := Execute(r, Stop, opts, input);
            && h.error == None && h.room.turnTimer == None && h.room.emptyTimer == None && h.room.turnDeadline == ZERO_TIME
            && h.room.turnToken > r.turnToken && h.room.emptyToken > r.emptyToken
            && h.room == r.(turnTimer := None, turnDeadline := ZERO_TIME, turnToken := h.room.turnToken,
                            emptyTimer := None, emptyToken := h.room.emptyToken)
  {
    hide EngineOk, InputOk;
  }
}
