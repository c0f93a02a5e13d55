/** The two timers of a room: which event is the current one, and what each command does to it. */
module RoomTimers {
  import opened Wrappers
  import opened Piles
  import opened Rules
  import opened Invariant
  import opened Setup
  import opened Runs
  import opened Rooms
  import opened RoomInvariant

  // ----- The turn timer -----

  predicate Live(r: RoomState) { r.phase == RoomPlaying && !r.destroyed }

  /** The one turn event that may act: for the member who has to act now, automatic exactly when he is managed or away. */
  ghost function Expected(r: RoomState): (e: TimerEvent)
    requires EngineOk(r.engine)
    ensures e.TurnEvent? && e.token == r.turnToken
  {
    match Actor(r.members, r.engine)
    case None => TurnEvent(TurnTimeout, r.turnToken)
    case Some(i) => TurnEvent(KindFor(r.members[i]), r.turnToken)
  }

  /** Of the events on their way none but the expected one is current, and in a live room that one is on its way. */
  ghost predicate TurnInv(r: RoomState, events: set<TimerEvent>)
    requires EngineOk(r.engine)
  {
    && (forall e :: e in events && e.TurnEvent? ==>
                      e.token <= r.turnToken && (e.token == r.turnToken ==> Live(r) && e == Expected(r)))
    && (Live(r) ==> Expected(r) in events)
  }

  ghost predicate SameTurnEvents(a: set<TimerEvent>, b: set<TimerEvent>) {
    forall e: TimerEvent :: e.TurnEvent? ==> (e in a <==> e in b)
  }

  /** The command leaves the turn alone ... */
  ghost predicate TurnKept(r: RoomState, r': RoomState)
    requires EngineOk(r.engine) && EngineOk(r'.engine)
  {
    && r'.turnToken == r.turnToken && Live(r') == Live(r) && (Live(r) ==> Expected(r') == Expected(r))
    && SameTurnEvents(r.armed, r'.armed)
  }

  /** ... or makes every earlier event stale and, in a live room, starts the timer for the one who has to act now. */
  ghost predicate TurnRenewed(r: RoomState, r': RoomState)
    requires EngineOk(r'.engine)
  {
    && r'.turnToken > r.turnToken
    && (forall e :: e in r'.armed && e.TurnEvent? ==> e in r.armed || (Live(r') && e == Expected(r')))
    && (Live(r') ==> Expected(r') in r'.armed)
  }

  ghost predicate TurnStep(r: RoomState, r': RoomState)
    requires EngineOk(r.engine) && EngineOk(r'.engine)
  {
    TurnKept(r, r') || TurnRenewed(r, r')
  }

  /** Every turn step keeps the turn invariant, also when an event that is not current any more is forgotten. */
  lemma TurnStepKeeps(r: RoomState, r': RoomState, before: set<TimerEvent>, after: set<TimerEvent>)
    requires EngineOk(r.engine) && EngineOk(r'.engine)
    requires TurnInv(r, before) && TurnStep(r, r') && r.armed <= before
    requires r'.armed <= after <= before + r'.armed
    requires TurnKept(r, r') && Live(r) ==> Expected(r) in after
    ensures TurnInv(r', after)
  {
    hide Expected, Live, EngineOk;
  }

  lemma CurrentActor(r: RoomState)
    requires RoomInv(r) && r.phase == RoomPlaying
    ensures 0 <= r.engine.value.currentSeat < |r.members|
    ensures Actor(r.members, r.engine) == Some(r.engine.value.currentSeat as nat)
    ensures Expected(r) == TurnEvent(KindFor(r.members[r.engine.value.currentSeat]), r.turnToken)
    ensures forall i :: 0 <= i < |r.members| ==> (IsActor(r, r.members[i].playerID) <==> i == r.engine.value.currentSeat)
  {
    ActorIsCurrent(r.members, r.engine.value);
    assert DistinctMembers(r.members);
    hide EngineOk, Actor, MembersOk, Inv;
  }

  lemma ScheduleRenews(r0: RoomState, r: RoomState, opts: Options, now: int)
    requires RoomInv(r) && !r.destroyed && OptionsOk(opts)
    requires r.turnToken == r0.turnToken && SameTurnEvents(r0.armed, r.armed)
    ensures ScheduleTurn(r, opts, now).phase == r.phase && ScheduleTurn(r, opts, now).engine == r.engine
    ensures TurnRenewed(r0, ScheduleTurn(r, opts, now))
  {
    if r.phase == RoomPlaying {
      CurrentActor(r);
      ScheduleArms(r, opts, now);
    }
    hide RoomInv, EngineOk, Actor, IsActor, CancelTurn;
    var s := ScheduleTurn(r, opts, now);
    ScheduleTurnSame(r, opts, now);
    assert r.phase != RoomPlaying ==> s == CancelTurn(r);
    CancelToken(r);
    hide ScheduleTurn;
    SameExpected(r, s);
  }

  lemma CancelToken(r: RoomState)
    ensures CancelTurn(r).turnToken == r.turnToken + 1 && CancelTurn(r).armed == r.armed
  {
  }

  lemma ScheduleArms(r: RoomState, opts: Options, now: int)
    requires RoomInv(r) && OptionsOk(opts) && r.phase == RoomPlaying
    ensures 0 <= r.engine.value.currentSeat < |r.members|
    ensures var s := ScheduleTurn(r, opts, now);
            s.turnToken == r.turnToken + 1
            && s.armed == r.armed + {TurnEvent(KindFor(r.members[r.engine.value.currentSeat]), s.turnToken)}
  {
    CurrentActor(r);
    hide RoomInv, EngineOk, Actor, IsActor, Expected;
  }

  /** Who is expected to act does not depend on the timers; the token is the room's own. */
  lemma SameExpected(r: RoomState, s: RoomState)
    requires EngineOk(r.engine) && SameRoom(r, s)
    ensures EngineOk(s.engine) && Live(s) == Live(r)
    ensures Expected(s) == TurnEvent(Expected(r).kind, s.turnToken)
  {
    hide EngineOk, Actor;
  }

  lemma EngineFine(r: RoomState)
    requires RoomInv(r)
    ensures EngineOk(r.engine)
  {
  }

  /** Without a live round only the token and the events count. */
  lemma NotLiveKept(r: RoomState, r': RoomState)
    requires EngineOk(r.engine) && EngineOk(r'.engine) && !Live(r) && !Live(r')
    requires r'.turnToken == r.turnToken && SameTurnEvents(r.armed, r'.armed)
    ensures TurnStep(r, r')
  {
    hide EngineOk, Live, Expected;
  }

  lemma CancelledStep(r: RoomState, r': RoomState)
    requires EngineOk(r.engine) && EngineOk(r'.engine) && !Live(r')
    requires r'.turnToken > r.turnToken && SameTurnEvents(r.armed, r'.armed)
    ensures TurnStep(r, r')
  {
    hide EngineOk, Live, Expected;
  }

  lemma ScheduleEmptyEvents(r: RoomState, opts: Options)
    ensures SameTurnEvents(r.armed, ScheduleEmpty(r, opts).armed)
    ensures ScheduleEmpty(r, opts).turnToken == r.turnToken
  {
  }

  lemma RemoveMemberTimers(r: RoomState, playerID: int, opts: Options)
    ensures var r' := RemoveMember(r, playerID, opts);
            && r'.engine == r.engine && r'.phase == r.phase
            && r'.turnToken >= r.turnToken && SameTurnEvents(r.armed, r'.armed)
  {
    hide FindMember, HasConnected, RemoveAt;
  }

  lemma RemoveMemberTurn(r: RoomState, playerID: int, opts: Options)
    requires RoomInv(r) && r.phase != RoomPlaying && !r.destroyed
    ensures EngineOk(r.engine) && RemoveMember(r, playerID, opts).engine == r.engine
    ensures TurnStep(r, RemoveMember(r, playerID, opts))
  {
    EngineFine(r);
    RemoveMemberTimers(r, playerID, opts);
    var r' := RemoveMember(r, playerID, opts);
    hide RoomInv, EngineOk, RemoveMember, SameTurnEvents;
    if r'.turnToken == r.turnToken {
      NotLiveKept(r, r');
    } else {
      CancelledStep(r, r');
    }
  }

  /** A change to a member who does not have to act, or that keeps connection and management, leaves the turn alone. */
  lemma OtherMemberKept(r: RoomState, i: nat, m: Member, r': RoomState)
    requires RoomInv(r) && RoomInv(r') && i < |r.members| && m.playerID == r.members[i].playerID
    requires r'.members == r.members[i := m] && r'.engine == r.engine && r'.phase == r.phase && r'.destroyed == r.destroyed
    requires r'.turnToken == r.turnToken && SameTurnEvents(r.armed, r'.armed)
    requires r.phase == RoomPlaying ==> !IsActor(r, m.playerID) || KindFor(m) == KindFor(r.members[i])
    ensures EngineOk(r.engine) && EngineOk(r'.engine) && TurnStep(r, r')
  {
    if r.phase == RoomPlaying {
      CurrentActor(r);
      CurrentActor(r');
    }
    EngineFine(r);
    hide RoomInv, EngineOk, Actor, IsActor, Expected;
  }

  lemma VacateTurn(r: RoomState, i: nat, abandoned: bool, opts: Options, now: int)
    requires !r.destroyed
    requires RoomInv(r) && i < |r.members| && r.phase == RoomPlaying && OptionsOk(opts)
    ensures EngineOk(r.engine) && EngineOk(Vacate(r, i, abandoned, opts, now).engine)
    ensures TurnStep(r, Vacate(r, i, abandoned, opts, now))
  {
    var m := r.members[i].(session := None, connected := false, autoPlay := true, abandoned := abandoned);
    MemberFacts(r, i);
    MemberEditInv(r, i, m);
    var away := SetMember(r, i, m);
    ScheduleEmptyInv(away, opts);
    ScheduleEmptyEvents(away, opts);
    var watched := ScheduleEmpty(away, opts);
    EngineFine(r);
    CurrentActor(r);
    CurrentActor(away);
    hide RoomInv, EngineOk, Actor, ScheduleTurn, ScheduleEmpty, IsActor, Expected, OptionsOk;
    if IsActor(away, m.playerID) {
      ScheduleRenews(r, watched, opts, now);
    } else {
      OtherMemberKept(r, i, m, watched);
    }
  }

  lemma HandleDisconnectTurn(r: RoomState, who: Option<Session>, opts: Options, now: int)
    requires RoomInv(r) && !r.destroyed && OptionsOk(opts)
    ensures EngineOk(r.engine) && EngineOk(HandleDisconnect(r, who, opts, now).engine)
    ensures TurnStep(r, HandleDisconnect(r, who, opts, now))
  {
    EngineFine(r);
    if who.Some? {
      var i := FindMember(r.members, who.value.playerID);
      if i.Some? && r.members[i.value].session == who {
        if r.phase == RoomPlaying {
          VacateTurn(r, i.value, r.members[i.value].abandoned, opts, now);
        } else {
          RemoveMemberTurn(r, who.value.playerID, opts);
        }
      }
    }
    hide RoomInv, EngineOk, Vacate, RemoveMember, Expected;
  }

  lemma TryReconnectTurn(r: RoomState, who: Option<Session>, opts: Options, now: int)
    requires !r.destroyed
    requires RoomInv(r) && OptionsOk(opts)
    ensures EngineOk(r.engine) && EngineOk(TryReconnect(r, who, opts, now).room.engine)
    ensures TurnStep(r, TryReconnect(r, who, opts, now).room)
  {
    EngineFine(r);
    if who.Some? {
      var i := FindMember(r.members, who.value.playerID);
      if i.Some? && !r.members[i.value].abandoned {
        var m := r.members[i.value].(session := who, connected := true, autoPlay := false, strikes := 0);
        MemberFacts(r, i.value);
        MemberEditInv(r, i.value, m);
        var back := CancelEmpty(SetMember(r, i.value, m));
        CancelInv(SetMember(r, i.value, m));
        if r.phase == RoomPlaying {
          CurrentActor(r);
          CurrentActor(back);
        }
        hide RoomInv, EngineOk, Actor, ScheduleTurn, IsActor, Expected, OptionsOk;
        if r.phase == RoomPlaying && IsActor(back, m.playerID) {
          ScheduleRenews(r, back, opts, now);
        } else {
          OtherMemberKept(r, i.value, m, back);
        }
      }
    }
    hide RoomInv, EngineOk, Actor, ScheduleTurn, IsActor, Expected;
  }

  lemma HandleReadyTurn(r: RoomState, s: Session, ready: Option<bool>)
    requires RoomInv(r)
    ensures EngineOk(r.engine) && EngineOk(HandleReady(r, s, ready).room.engine)
    ensures TurnStep(r, HandleReady(r, s, ready).room)
  {
    EngineFine(r);
    hide RoomInv, EngineOk, Expected;
  }

  lemma HandleStartTurn(r: RoomState, s: Session, opts: Options, input: Input)
    requires !r.destroyed
    requires RoomInv(r) && InputOk(input) && OptionsOk(opts)
    ensures EngineOk(r.engine) && EngineOk(HandleStart(r, s, opts, input).room.engine)
    ensures TurnStep(r, HandleStart(r, s, opts, input).room)
  {
    hide NewGame, ScheduleTurn, RoomInv, AllReady, PersistStart, EngineOk, Expected, InputOk, OptionsOk, TurnStep, Inv;
    EngineFine(r);
    Untouched(r);
    HandleStartInv(r, s, opts, input);
    EngineFine(HandleStart(r, s, opts, input).room);
    var game := NewGame(MemberIDs(r.members), 0, input.dealing);
    var p := PersistStart(r, opts, input);
    StartTimers(r, opts, input);
    if r.phase == RoomWaiting && game.Ok? && p.error.None? {
      StartedInv(r, opts, input, game.value);
      var started := p.room.(engine := Some(game.value), phase := RoomPlaying);
      EngineFine(started);
      ScheduleRenews(r, started, opts, input.now);
      RenewedStep(r, ScheduleTurn(started, opts, input.now));
    } else {
      NotLiveStart(r, p.room);
    }
  }

  lemma RenewedStep(r: RoomState, r': RoomState)
    requires EngineOk(r.engine) && EngineOk(r'.engine) && TurnRenewed(r, r')
    ensures TurnStep(r, r')
  {
    hide EngineOk, TurnKept, TurnRenewed;
  }

  lemma StartedInv(r: RoomState, opts: Options, input: Input, g: Game)
    requires RoomInv(r) && InputOk(input) && r.phase == RoomWaiting && PersistStart(r, opts, input).error.None?
    requires NewGame(MemberIDs(r.members), 0, input.dealing) == Ok(g)
    ensures RoomInv(PersistStart(r, opts, input).room.(engine := Some(g), phase := RoomPlaying))
  {
    NewGameInv(MemberIDs(r.members), 0, input.dealing);
    NewGameUnfinished(MemberIDs(r.members), 0, input.dealing);
    StartPersisted(r, opts, input);
    hide NewGame, RoomInv, PersistStart, Inv;
    GameStarted(r, PersistStart(r, opts, input).room, g);
  }

  lemma Untouched(r: RoomState)
    requires EngineOk(r.engine)
    ensures TurnStep(r, r)
  {
    hide EngineOk, Expected;
  }

  lemma NotLiveStart(r: RoomState, p: RoomState)
    requires EngineOk(r.engine) && p.turnToken == r.turnToken && p.armed == r.armed && p.phase == r.phase
    requires p.engine == r.engine && p.destroyed == r.destroyed
    ensures r.phase != RoomPlaying ==> TurnStep(r, p)
  {
    hide EngineOk, Expected;
  }

  lemma StartTimers(r: RoomState, opts: Options, input: Input)
    ensures var p := PersistStart(r, opts, input).room;
            p.turnToken == r.turnToken && p.armed == r.armed && p.phase == r.phase && p.engine == r.engine
            && p.destroyed == r.destroyed && p.members == r.members
  {
  }

  lemma HandleLeaveTurn(r: RoomState, s: Session, opts: Options, now: int)
    requires RoomInv(r) && !r.destroyed && OptionsOk(opts)
    ensures EngineOk(r.engine) && EngineOk(HandleLeave(r, s, opts, now).engine)
    ensures TurnStep(r, HandleLeave(r, s, opts, now))
  {
    EngineFine(r);
    if r.phase == RoomPlaying {
      var i := FindMember(r.members, s.playerID);
      if i.Some? {
        VacateTurn(r, i.value, true, opts, now);
      }
    } else {
      RemoveMemberTurn(r, s.playerID, opts);
    }
    hide RoomInv, EngineOk, Vacate, RemoveMember, Expected;
  }

  lemma HandleKickTurn(r: RoomState, s: Session, target: Option<int>, opts: Options)
    requires RoomInv(r) && !r.destroyed
    ensures EngineOk(r.engine) && EngineOk(HandleKick(r, s, target, opts).room.engine)
    ensures TurnStep(r, HandleKick(r, s, target, opts).room)
  {
    EngineFine(r);
    if target.Some? && r.phase == RoomWaiting {
      RemoveMemberTurn(r, target.value, opts);
    }
    hide RoomInv, EngineOk, RemoveMember, Expected;
  }

  // ----- Game commands -----

  /** Calling and catching do not move the turn. */
  lemma CallKeepsTurn(g: Game, command: Command, env: Env)
    requires Shape(g) && (command.CallUNO? || command.CatchUNO?)
    ensures var g' := Apply(g, command, env).game; g'.currentSeat == g.currentSeat && g'.phase == g.phase
  {
    hide DealCards;
  }

  lemma SettledTurn(r0: RoomState, r: RoomState, opts: Options, input: Input)
    requires MovedInv(r) && r.turnToken == r0.turnToken && SameTurnEvents(r0.armed, r.armed)
    requires EngineOk(r0.engine)
    ensures var over := PersistSettlement(CancelTurn(r.(phase := RoomSettled)), opts, input).room;
            EngineOk(over.engine) && TurnStep(r0, over)
  {
    assert EngineOk(r.engine);
    hide MovedInv, EngineOk;
    var over := PersistSettlement(CancelTurn(r.(phase := RoomSettled)), opts, input).room;
    assert over.phase == RoomSettled && over.engine == r.engine && over.armed == r.armed && over.turnToken == r.turnToken + 1;
    hide PersistSettlement, CancelTurn;
    CancelledStep(r0, over);
  }

  lemma FinishCommandTurn(r0: RoomState, r: RoomState, playerID: int, turnAction: bool, opts: Options, input: Input)
    requires !r.destroyed
    requires MovedInv(r) && FindMember(r.members, playerID).Some? && OptionsOk(opts)
    requires RoomInv(r0) && r == r0.(engine := r.engine)
    requires !turnAction ==> r.engine.value.phase == r0.engine.value.phase && r.engine.value.currentSeat == r0.engine.value.currentSeat
    ensures EngineOk(r0.engine) && EngineOk(FinishCommand(r, playerID, turnAction, opts, input).room.engine)
    ensures TurnStep(r0, FinishCommand(r, playerID, turnAction, opts, input).room)
  {
    EngineFine(r0);
    MovedMember(r, playerID);
    var i := FindMember(r.members, playerID).value;
    var m := r.members[i].(strikes := 0, autoPlay := false);
    MovedEdit(r, i, m);
    var back := if turnAction then SetMember(r, i, m) else r;
    PlayedOnInv(back);
    FinishCommandInv(r, playerID, turnAction, opts, input);
    EngineFine(FinishCommand(r, playerID, turnAction, opts, input).room);
    if back.engine.value.phase == Finished {
      SettledTurn(r0, back, opts, input);
    } else if turnAction {
      hide MovedInv, FinishCommand;
      ScheduleRenews(r0, back, opts, input.now);
    } else {
      hide MovedInv;
      SameActorKept(r0, r);
    }
    hide MovedInv, RoomInv, EngineOk, ScheduleTurn, CancelTurn, MemberOk, Expected, PersistSettlement, OptionsOk;
  }

  lemma SameActorKept(r: RoomState, r': RoomState)
    requires RoomInv(r) && RoomInv(r') && r.phase == RoomPlaying && r' == r.(engine := r'.engine)
    requires r'.engine.value.currentSeat == r.engine.value.currentSeat
    ensures EngineOk(r.engine) && EngineOk(r'.engine) && TurnStep(r, r')
  {
    CurrentActor(r);
    CurrentActor(r');
    EngineFine(r);
    EngineFine(r');
    hide RoomInv, EngineOk, Actor, IsActor, Expected;
  }

  /** What an engine command leaves before the room follows it. */
  lemma MovedFacts(r: RoomState, command: Command, input: Input)
    requires RoomInv(r) && InputOk(input) && r.phase == RoomPlaying
    ensures r.engine.Some? && Inv(r.engine.value, false)
    ensures var o := CommandOutcome(r.engine.value, command, input);
            && MovedInv(r.(engine := Some(o.game)))
            && (o.reply.Failed? || command.CallUNO? || command.CatchUNO? ==>
                  o.game.phase == r.engine.value.phase && o.game.currentSeat == r.engine.value.currentSeat)
  {
    var g := r.engine.value;
    InvShape(g, false);
    var o := CommandOutcome(g, command, input);
    ApplySeats(g, command, EnvOf(input));
    EngineMoved(r, o.game);
    hide RoomInv, MovedInv, Apply, Inv, InputOk;
    if o.reply.Failed? {
      RefusedUnfinished(g, command, EnvOf(input));
    } else if command.CallUNO? || command.CatchUNO? {
      CallKeepsTurn(g, command, EnvOf(input));
    }
  }

  lemma HandleMoveTurn(r: RoomState, s: Session, move: Move, opts: Options, input: Input)
    requires !r.destroyed
    requires RoomInv(r) && InputOk(input) && FindMember(r.members, s.playerID).Some? && OptionsOk(opts)
    ensures EngineOk(r.engine) && EngineOk(HandleMove(r, s, move, opts, input).room.engine)
    ensures TurnStep(r, HandleMove(r, s, move, opts, input).room)
  {
    hide RoomInv, MovedInv, CommandOutcome, Inv, FinishCommand, EngineOk, Expected, OptionsOk, InputOk, TurnStep;
    EngineFine(r);
    Untouched(r);
    var command := CommandOf(s.playerID, move);
    if r.phase == RoomPlaying && command.Some? {
      MovedFacts(r, command.value, input);
      var o := CommandOutcome(r.engine.value, command.value, input);
      var moved := r.(engine := Some(o.game));
      if o.reply.Failed? {
        PlayedOnInv(moved);
        Unfinished(r);
        SameActorKept(r, moved);
      } else {
        FinishCommandTurn(r, moved, s.playerID, IsTurnAction(move), opts, input);
      }
    }
  }

  lemma HandleMessageTurn(r: RoomState, s: Session, message: Message, opts: Options, input: Input)
    requires RoomInv(r) && InputOk(input) && !r.destroyed && OptionsOk(opts)
    ensures EngineOk(r.engine) && EngineOk(HandleMessage(r, s, message, opts, input).room.engine)
    ensures TurnStep(r, HandleMessage(r, s, message, opts, input).room)
  {
    EngineFine(r);
    var i := FindMember(r.members, s.playerID);
    hide RoomInv, HandleReady, HandleStart, HandleLeave, HandleKick, HandleMove, InputOk, EngineOk, Expected, OptionsOk;
    if i.Some? {
      match message
      case ReadyMessage(ready) => HandleReadyTurn(r, s, ready);
      case StartMessage => HandleStartTurn(r, s, opts, input);
      case LeaveMessage => HandleLeaveTurn(r, s, opts, input.now);
      case KickMessage(target) => HandleKickTurn(r, s, target, opts);
      case MoveMessage(move) => HandleMoveTurn(r, s, move, opts, input);
      case UnknownMessage =>
    }
  }

  // ----- The timer itself -----

  lemma FinishAutomatedTurn(r0: RoomState, r: RoomState, opts: Options, input: Input)
    requires !r.destroyed
    requires MovedInv(r) && OptionsOk(opts) && r.turnToken == r0.turnToken && r.armed == r0.armed && EngineOk(r0.engine)
    ensures EngineOk(r.engine) && EngineOk(FinishAutomated(r, opts, input).engine)
    ensures TurnRenewed(r0, FinishAutomated(r, opts, input))
  {
    FirstSeated(r);
    PlayedOnInv(r);
    FinishAutomatedInv(r, opts, input);
    EngineFine(FinishAutomated(r, opts, input));
    if r.engine.value.phase == Finished {
      SettledTurn(r0, r, opts, input);
    } else {
      ScheduleRenews(r0, r, opts, input.now);
    }
    hide MovedInv, RoomInv, EngineOk, ScheduleTurn, Expected;
  }

  /** A current turn event always moves the token on, so an event acts at most once; any other changes nothing. */
  lemma HandleTurnEventTurn(r: RoomState, kind: TurnKind, token: nat, opts: Options, input: Input)
    requires !r.destroyed
    requires RoomInv(r) && InputOk(input) && OptionsOk(opts)
    ensures EngineOk(r.engine) && EngineOk(HandleTurnEvent(r, kind, token, opts, input).engine)
    ensures if token == r.turnToken && r.phase == RoomPlaying then
              TurnRenewed(r, HandleTurnEvent(r, kind, token, opts, input))
            else HandleTurnEvent(r, kind, token, opts, input) == r
  {
    EngineFine(r);
    HandleTurnEventInv(r, kind, token, opts, input);
    EngineFine(HandleTurnEvent(r, kind, token, opts, input));
    if token == r.turnToken && r.phase == RoomPlaying {
      var g := r.engine.value;
      ActorIsCurrent(r.members, g);
      var i: nat := g.currentSeat;
      SeatedMember(g.players, r.members, i);
      var o := AutoOutcome(g, r.members[i].playerID, input);
      AutoOutcomeFacts(g, r.members[i].playerID, input);
      StruckInv(r, i, o.game, kind, opts);
      var acted := SetMember(r.(engine := Some(o.game)), i, Struck(r.members[i], kind, opts));
      assert HandleTurnEvent(r, kind, token, opts, input)
          == if o.reply.Failed? then ScheduleTurn(acted, opts, input.now) else FinishAutomated(acted, opts, input);
      hide RoomInv, MovedInv, AutoOutcome, Inv, FinishAutomated, Actor, ScheduleTurn, Struck, SameSeats, SeatsMatch, Expected,
           HandleTurnEvent, InputOk, OptionsOk, EngineOk;
      if o.reply.Failed? {
        PlayedOnInv(acted);
        ScheduleRenews(r, acted, opts, input.now);
      } else {
        FinishAutomatedTurn(r, acted, opts, input);
      }
    } else {
      hide RoomInv, AutoOutcome, EngineOk;
    }
  }

  lemma TryJoinTurn(r: RoomState, s: Session)
    requires RoomInv(r)
    ensures EngineOk(r.engine) && TryJoin(r, s).room.engine == r.engine && TurnStep(r, TryJoin(r, s).room)
  {
    EngineFine(r);
    hide RoomInv, EngineOk, Expected;
  }

  lemma EmptyCommandsTurn(r: RoomState, token: nat, opts: Options)
    requires RoomInv(r)
    ensures EngineOk(r.engine) && HandleEmptyEvent(r, token).engine == r.engine && ScheduleEmpty(r, opts).engine == r.engine
    ensures TurnStep(r, HandleEmptyEvent(r, token)) && TurnStep(r, ScheduleEmpty(r, opts))
  {
    EngineFine(r);
    ScheduleEmptyEvents(r, opts);
    ScheduleEmptyInv(r, opts);
    SameExpected(r, ScheduleEmpty(r, opts));
    hide RoomInv, EngineOk, Expected;
  }

  /** Every command but the last leaves the turn alone or renews it; a turn event that acts renews it. */
  lemma ExecuteTurn(r: RoomState, command: RoomCommand, opts: Options, input: Input)
    requires RoomInv(r) && CommandOk(command) && InputOk(input) && !r.destroyed && OptionsOk(opts) && command != Stop
    ensures EngineOk(r.engine) && EngineOk(Execute(r, command, opts, input).room.engine)
    ensures var r' := Execute(r, command, opts, input).room;
            && TurnStep(r, r')
            && (command.Timer? && command.event.TurnEvent? && Live(r) && command.event.token == r.turnToken ==> TurnRenewed(r, r'))
  {
    EngineFine(r);
    hide RoomInv, EngineOk, Expected, HandleMessage, HandleDisconnect, TryReconnect, TryJoin, HandleTurnEvent,
         HandleEmptyEvent, ScheduleEmpty, InputOk, OptionsOk;
    match command
    case FromPlayer(s, message) => HandleMessageTurn(r, s, message, opts, input);
    case Join(s) => TryJoinTurn(r, s);
    case Disconnect(who) => HandleDisconnectTurn(r, who, opts, input.now);
    case Reconnect(who) => TryReconnectTurn(r, who, opts, input.now);
    case Timer(TurnEvent(kind, token)) => HandleTurnEventTurn(r, kind, token, opts, input);
    case Timer(EmptyEvent(token)) => EmptyCommandsTurn(r, token, opts);
    case TakeRoomSnapshot => EmptyCommandsTurn(r, 0, opts);
  }
}
