/** The room as the program keeps it: one object that only its mailbox loop changes. */
module RoomActors {
  import opened Wrappers
  import opened Cards
  import opened Rules
  import opened Invariant
  import opened Preservation
  import opened Setup
  import opened Views
  import opened Automation
  import opened Snapshots
  import Runs
  import opened Engines
  import opened Validation
  import opened Settlement
  import opened Rooms
  import opened RoomSnapshots

  class Room {
    const id: string
    const maxPlayers: int
    const options: Options
    var ownerID: int
    var phase: RoomPhase
    var members: seq<Member>
    var engine: Engine?
    var turnTimer: Option<TimerEvent>
    var turnToken: nat
    var turnDeadline: int
    var emptyTimer: Option<TimerEvent>
    var emptyToken: nat
    var armed: set<TimerEvent>
    var matchID: int
    var matchStartedAt: int
    var matchSettled: bool
    var snapshotRevision: nat
    var destroyed: bool
    var closing: bool

    function Round(): Option<Game>
      reads this, engine
    {
      if engine == null then None else Some(engine.State())
    }

    function State(): RoomState
      reads this, engine
    {
      RoomState(id, maxPlayers, ownerID, phase, members, Round(), turnTimer, turnToken, turnDeadline,
                emptyTimer, emptyToken, armed, matchID, matchStartedAt, matchSettled, snapshotRevision, destroyed, closing)
    }

    ghost predicate Valid()
      reads this, engine
    {
      EngineOk(Round()) && (engine != null ==> engine.challengeWindow == CHALLENGE_WINDOW)
    }

    constructor (r: RoomState, engine: Engine?, options: Options)
      requires r.engine == if engine == null then None else Some(engine.State())
      ensures this.engine == engine && State() == r && this.options == options
    {
      id, maxPlayers, this.options, this.engine := r.id, r.maxPlayers, options, engine;
      ownerID, phase, members := r.ownerID, r.phase, r.members;
      turnTimer, turnToken, turnDeadline := r.turnTimer, r.turnToken, r.turnDeadline;
      emptyTimer, emptyToken, armed := r.emptyTimer, r.emptyToken, r.armed;
      matchID, matchStartedAt, matchSettled := r.matchID, r.matchStartedAt, r.matchSettled;
      snapshotRevision, destroyed, closing := r.revision, r.destroyed, r.closing;
    }

    // ----- Lookups -----

    method MemberIndex(playerID: int) returns (index: Option<nat>)
      ensures index == FindMember(members, playerID)
    {
      for i := 0 to |members|
        invariant forall j :: 0 <= j < i ==> members[j].playerID != playerID
      {
        if members[i].playerID == playerID {
          return Some(i);
        }
      }
      index := None;
    }

    method HasConnectedMember() returns (found: bool)
      ensures found == HasConnected(members)
    {
      for i := 0 to |members|
        invariant forall j :: 0 <= j < i ==> !(members[j].connected && members[j].session.Some?)
      {
        if members[i].connected && members[i].session.Some? {
          return true;
        }
      }
      found := false;
    }

    /** The one who has to act, and what he sees. */
    method CurrentActorView(now: int) returns (view: Option<View>, actor: Option<nat>)
      requires Valid()
      ensures actor == Actor(members, Round()) && (actor.None? ==> view.None?)
      ensures actor.Some? ==> engine != null && actor.value < |members| && Shape(engine.State())
                              && view == Some(Views.ViewFor(engine.State(), members[actor.value].playerID, now).value)
                              && SeatOf(engine.State().players, members[actor.value].playerID).Some?
    {
      if engine == null || |members| == 0 {
        return None, None;
      }
      InvShape(engine.State(), false);
      hide Inv;
      var public := engine.ViewFor(members[0].playerID, now);
      if public.Err? || public.value.phase == Finished {
        return None, None;
      }
      var actorID := if public.value.phase == AwaitingColor then public.value.colorChooserID else public.value.currentPlayerID;
      var index := MemberIndex(actorID);
      if index.None? {
        return None, None;
      }
      var own := engine.ViewFor(actorID, now);
      if own.Err? {
        return None, None;
      }
      view, actor := Some(own.value), index;
    }

    method IsCurrentGamePlayer(playerID: int, now: int) returns (b: bool)
      requires Valid()
      ensures b == IsActor(State(), playerID)
    {
      hide EngineOk, Actor;
      var _, actor := CurrentActorView(now);
      b := actor.Some? && members[actor.value].playerID == playerID;
    }

    // ----- Timers -----

    method CancelTurnTimer()
      modifies this`turnTimer, this`turnDeadline, this`turnToken
      ensures State() == CancelTurn(old(State()))
    {
      turnTimer := None;
      turnDeadline := ZERO_TIME;
      turnToken := turnToken + 1;
    }

    method ArmTurnTimer(delay: int, kind: TurnKind, now: int)
      modifies this`turnTimer, this`turnDeadline, this`turnToken, this`armed
      ensures State() == ArmTurn(old(State()), delay, kind, now)
    {
      CancelTurnTimer();
      if phase != RoomPlaying || engine == null || delay <= 0 {
        return;
      }
      var event := TurnEvent(kind, turnToken);
      turnDeadline := now + delay;
      turnTimer := Some(event);
      armed := armed + {event};
    }

    method ScheduleTurnTimer(now: int)
      requires Valid()
      modifies this`turnTimer, this`turnDeadline, this`turnToken, this`armed
      ensures State() == ScheduleTurn(old(State()), options, now)
    {
      hide EngineOk, Actor;
      if phase != RoomPlaying || engine == null {
        CancelTurnTimer();
        return;
      }
      var _, actor := CurrentActorView(now);
      if actor.None? {
        CancelTurnTimer();
        return;
      }
      var member := members[actor.value];
      var delay, kind := options.turnTimeout, TurnTimeout;
      if member.autoPlay || !member.connected {
        delay, kind := options.managedDelay, AutoPlayTurn;
      }
      ArmTurnTimer(delay, kind, now);
    }

    method ScheduleEmptyRoomTimer()
      modifies this`emptyTimer, this`armed
      ensures State() == ScheduleEmpty(old(State()), options)
    {
      var connected := HasConnectedMember();
      if destroyed || options.emptyTTL <= 0 || connected || emptyTimer.Some? {
        return;
      }
      var event := EmptyEvent(emptyToken);
      emptyTimer := Some(event);
      armed := armed + {event};
    }

    method CancelEmptyRoomTimer()
      modifies this`emptyTimer, this`emptyToken
      ensures State() == CancelEmpty(old(State()))
    {
      emptyTimer := None;
      emptyToken := emptyToken + 1;
    }

    method BeginDestroy()
      modifies this
      ensures engine == old(engine) && State() == Rooms.BeginDestroy(old(State()))
    {
      closing := true;
      destroyed := true;
      CancelTurnTimer();
      CancelEmptyRoomTimer();
    }

    method HandleEmptyRoomTimeout(token: nat) returns (stop: bool)
      modifies this
      ensures engine == old(engine) && State() == HandleEmptyEvent(old(State()), token)
      ensures stop <==> State().destroyed && !old(destroyed)
    {
      var connected := HasConnectedMember();
      if token != emptyToken || destroyed || connected {
        return false;
      }
      BeginDestroy();
      stop := true;
    }

    // ----- Coming and going -----

    method RemoveMember(playerID: int)
      modifies this
      ensures engine == old(engine) && State() == Rooms.RemoveMember(old(State()), playerID, options)
    {
      hide ScheduleEmpty, HasConnected, Rooms.BeginDestroy;
      var index := MemberIndex(playerID);
      if index.None? {
        return;
      }
      members := members[..index.value] + members[index.value + 1..];
      if |members| == 0 {
        BeginDestroy();
        return;
      }
      if playerID == ownerID {
        ownerID := members[0].playerID;
        members := members[0 := members[0].(ready := true)];
      }
      WatchedIfConnected(State(), options);
      var connected := HasConnectedMember();
      if !connected {
        ScheduleEmptyRoomTimer();
      }
    }

    method TryJoin(s: Session) returns (error: Option<RoomError>)
      modifies this
      ensures engine == old(engine) && Handled(State(), error) == Rooms.TryJoin(old(State()), s)
    {
      if phase != RoomWaiting {
        return Some(AlreadyPlaying);
      }
      var found := MemberIndex(s.playerID);
      if found.Some? {
        return Some(AlreadyInRoom);
      }
      if |members| >= maxPlayers {
        return Some(RoomFull);
      }
      members := members + [Member(s.playerID, s.nickname, false, true, false, 0, Some(s), false)];
      CancelEmptyRoomTimer();
      error := None;
    }

    method HandleDisconnect(who: Option<Session>, now: int)
      requires Valid()
      modifies this
      ensures engine == old(engine) && State() == Rooms.HandleDisconnect(old(State()), who, options, now)
    {
      hide EngineOk, Actor, Vacate, Rooms.RemoveMember;
      if who.None? {
        return;
      }
      var index := MemberIndex(who.value.playerID);
      if index.None? || members[index.value].session != who {
        return;
      }
      if phase == RoomPlaying {
        KeepSeat(index.value, now);
      } else {
        RemoveMember(who.value.playerID);
      }
    }

    /** In a round the seat of a lost connection stays and is managed at once. */
    method KeepSeat(index: nat, now: int)
      requires Valid() && index < |members|
      modifies this
      ensures engine == old(engine)
      ensures State() == Vacate(old(State()), index, old(members[index].abandoned), options, now)
    {
      hide EngineOk, Actor, HasConnected;
      var m := members[index].(session := None, connected := false, autoPlay := true);
      members := members[index := m];
      var connected := HasConnectedMember();
      if !connected {
        ScheduleEmptyRoomTimer();
      }
      var current := IsCurrentGamePlayer(m.playerID, now);
      if current {
        ScheduleTurnTimer(now);
      }
    }

    method AbandonMember(playerID: int, now: int)
      requires Valid()
      modifies this
      ensures engine == old(engine)
      ensures State() == match FindMember(old(members), playerID)
                         case None => old(State())
                         case Some(i) => Vacate(old(State()), i, true, options, now)
    {
      hide EngineOk, Actor;
      var index := MemberIndex(playerID);
      if index.None? {
        return;
      }
      members := members[index.value := members[index.value].(session := None, connected := false, autoPlay := true, abandoned := true)];
      ghost var away := State();
      var current := IsCurrentGamePlayer(playerID, now);
      if current {
        ScheduleTurnTimer(now);
      }
      var connected := HasConnectedMember();
      if !connected {
        ScheduleEmptyRoomTimer();
      }
      TimersCommute(away, options, now);
    }

    method TryReconnect(who: Option<Session>, now: int) returns (error: Option<RoomError>)
      requires Valid()
      modifies this
      ensures engine == old(engine) && Handled(State(), error) == Rooms.TryReconnect(old(State()), who, options, now)
    {
      hide EngineOk, Actor, ScheduleTurn, IsActor;
      if who.None? {
        return Some(NotInRoom);
      }
      var index := MemberIndex(who.value.playerID);
      if index.None? || members[index.value].abandoned {
        return Some(NotInRoom);
      }
      var m := members[index.value].(session := who, connected := true, autoPlay := false, strikes := 0);
      members := members[index.value := m];
      CancelEmptyRoomTimer();
      var current := IsCurrentGamePlayer(m.playerID, now);
      if phase == RoomPlaying && current {
        ScheduleTurnTimer(now);
      }
      error := None;
    }

    // ----- Messages -----

    method HandleReady(s: Session, ready: Option<bool>) returns (error: Option<RoomError>)
      modifies this
      ensures engine == old(engine) && Handled(State(), error) == Rooms.HandleReady(old(State()), s, ready)
    {
      if phase != RoomWaiting {
        return Some(AlreadyPlaying);
      }
      var index := MemberIndex(s.playerID);
      if index.None? {
        return Some(NotInRoom);
      }
      if ready.None? {
        return Some(InvalidArgument);
      }
      var m := members[index.value];
      if m.playerID == ownerID {
        members := members[index.value := m.(ready := true)];
      } else {
        members := members[index.value := m.(ready := ready.value)];
      }
      error := None;
    }

    /** `written` is the match handed to the store, if it comes to that. */
    method PersistMatchStart(input: Input) returns (error: Option<RoomError>, written: Option<Match>)
      requires InputOk(input)
      modifies this`matchID, this`matchStartedAt, this`matchSettled
      ensures Handled(State(), error) == PersistStart(old(State()), options, input)
      ensures written.Some? <==> options.hasMatches && input.ids(0).Ok?
      ensures written.Some? ==> written.value == StartedMatch(input.ids(0).value, id, |members|, input.now)
                                && ValidStart(written.value)
      ensures written.Some? && |members| <= MAX_PLAYERS_CAP ==> written.value.playerCount == |members|
      ensures matchID != 0 ==> written.Some? && matchID == written.value.id && matchStartedAt == written.value.startedAt
    {
      matchID, matchStartedAt, matchSettled := 0, ZERO_TIME, false;
      if !options.hasMatches {
        return None, None;
      }
      if input.ids(0).Err? {
        return Some(StoreFailed), None;
      }
      var m := Match(input.ids(0).value, id, MatchPlaying, Int8(|members|), None, input.now, None, input.now);
      written := Some(m);
      if !input.stored {
        return Some(StoreFailed), written;
      }
      matchID := m.id;
      matchStartedAt := m.startedAt;
      error := None;
    }

    method EveryoneReady() returns (all: bool)
      ensures all == AllReady(members)
    {
      for i := 0 to |members|
        invariant forall j :: 0 <= j < i ==> members[j].ready
      {
        if !members[i].ready {
          return false;
        }
      }
      all := true;
    }

    method PlayerIDs() returns (ids: seq<int>)
      ensures ids == MemberIDs(members)
    {
      ids := [];
      for i := 0 to |members|
        invariant |ids| == i && forall j :: 0 <= j < i ==> ids[j] == members[j].playerID
      {
        ids := ids + [members[i].playerID];
      }
    }

    method HandleStart(s: Session, input: Input) returns (error: Option<RoomError>)
      requires Valid() && InputOk(input)
      modifies this
      ensures Valid() && (engine == old(engine) || fresh(engine))
      ensures Handled(State(), error) == Rooms.HandleStart(old(State()), s, options, input)
    {
      hide NewGame, ScheduleTurn, AllReady, Inv, EngineOk, PersistStart, InputOk;
      StartedEngine(MemberIDs(members), input);
      if s.playerID != ownerID {
        return Some(NotOwner);
      }
      if phase != RoomWaiting {
        return Some(AlreadyPlaying);
      }
      if |members| < MIN_PLAYERS {
        return Some(NotReady);
      }
      var ready := EveryoneReady();
      if !ready {
        return Some(NotReady);
      }
      var ids := PlayerIDs();
      var created := NewEngine(ids, Config(0, 0), input.dealing);
      if created.Err? {
        return Some(Internal);
      }
      var failed, _ := PersistMatchStart(input);
      if failed.Some? {
        return failed;
      }
      engine := created.value;
      phase := RoomPlaying;
      ScheduleTurnTimer(input.now);
      error := None;
    }

    method HandleLeave(s: Session, now: int)
      requires Valid()
      modifies this
      ensures engine == old(engine) && State() == Rooms.HandleLeave(old(State()), s, options, now)
    {
      hide EngineOk, Vacate, Rooms.RemoveMember;
      if phase == RoomPlaying {
        AbandonMember(s.playerID, now);
        return;
      }
      RemoveMember(s.playerID);
    }

    method HandleKick(s: Session, target: Option<int>) returns (error: Option<RoomError>)
      modifies this
      ensures engine == old(engine) && Handled(State(), error) == Rooms.HandleKick(old(State()), s, target, options)
    {
      hide Rooms.RemoveMember;
      if s.playerID != ownerID {
        return Some(NotOwner);
      }
      if phase != RoomWaiting {
        return Some(AlreadyPlaying);
      }
      if target.None? || target.value == 0 {
        return Some(InvalidArgument);
      }
      if target.value == ownerID {
        return Some(InvalidArgument);
      }
      var found := MemberIndex(target.value);
      if found.None? {
        return Some(NotInRoom);
      }
      RemoveMember(target.value);
      error := None;
    }

    // ----- The game -----

    /** Runs the engine command a message asks for; `None` for a payload that is refused. */
    method RunMove(playerID: int, move: Move, input: Input) returns (reply: Option<Reply>)
      requires Valid() && engine != null && InputOk(input)
      modifies engine
      ensures Valid()
      ensures match CommandOf(playerID, move)
              case None => reply == None && engine.State() == old(engine.State())
              case Some(command) =>
                reply.Some? && Outcome(engine.State(), reply.value) == CommandOutcome(old(engine.State()), command, input)
    {
      hide Inv, EngineOk, InputOk, Apply, PlayCard, DrawCard, PassTurn, PickColor, Call, Catch, CommandOutcome;
      var env := EnvOf(input);
      ghost var g := engine.State();
      ghost var command := CommandOf(playerID, move);
      EngineReady(g, input);
      if command.Some? {
        OutcomeOf(g, command.value, input);
      }
      match move
      case PlayMove(cardID, sayUNO) =>
        if cardID.None? || cardID.value == 0 {
          return None;
        }
        var r := engine.Play(playerID, cardID.value, sayUNO, env);
        reply := Some(r);
      case DrawMove =>
        var r := engine.Draw(playerID, env);
        reply := Some(r);
      case PassMove =>
        var r := engine.Pass(playerID);
        reply := Some(r);
      case ColorMove(color) =>
        if color.None? {
          return None;
        }
        var r := engine.ChooseColor(playerID, color.value);
        reply := Some(r);
      case CallMove =>
        var r := engine.CallUNO(playerID, env);
        reply := Some(r);
      case CatchMove(target) =>
        if target.None? || target.value <= 0 {
          return None;
        }
        var r := engine.CatchUNO(playerID, target.value, env);
        reply := Some(r);
    }

    /** Builds the rows, has the store check them and writes them in one transaction; `written` is what is written then. */
    method PersistSettlement(result: Option<RoundResult>, input: Input)
      returns (error: Option<RoomError>, written: Option<(Match, seq<MatchResult>)>)
      requires engine != null && result == engine.State().result
      modifies this`matchSettled
      ensures Handled(State(), error) == Rooms.PersistSettlement(old(State()), options, input)
      ensures written.Some? <==> matchSettled && !old(matchSettled)
      ensures written.Some? ==> result.Some? && AllIssued(input.ids, |result.value.players|)
      ensures written.Some? ==>
                && written.value.0 == FinishedMatch(matchID, id, matchStartedAt, result.value, input.now)
                && written.value.1 == Rows(matchID, result.value, IssuedIDs(input.ids, |result.value.players|), input.now)
    {
      hide ValidSettlement, Rows, IssuedIDs, AllIssued, FinishedMatch;
      if !options.hasMatches || matchID == 0 || matchSettled || result.None? {
        return None, None;
      }
      var m := FinishedMatch(matchID, id, matchStartedAt, result.value, input.now);
      var rows := BuildRows(matchID, result.value, input.ids, input.now);
      if rows.Err? {
        return Some(StoreFailed), None;
      }
      var accepted := ValidateSettlement(m, rows.value);
      if !accepted || !input.stored {
        return Some(StoreFailed), None;
      }
      matchSettled := true;
      error, written := None, Some((m, rows.value));
    }

    method ClearStrikes(playerID: int)
      modifies this`members
      ensures State() == Cleared(old(State()), playerID)
    {
      var index := MemberIndex(playerID);
      if index.Some? && (members[index.value].strikes != 0 || members[index.value].autoPlay) {
        members := members[index.value := members[index.value].(strikes := 0, autoPlay := false)];
      }
    }

    method SettleRoom(result: Option<RoundResult>, input: Input) returns (error: Option<RoomError>)
      requires engine != null && result == engine.State().result
      modifies this
      ensures engine == old(engine)
      ensures Handled(State(), error)
              == Rooms.PersistSettlement(CancelTurn(old(State()).(phase := RoomSettled)), options, input)
    {
      hide Rooms.PersistSettlement, CancelTurn;
      phase := RoomSettled;
      CancelTurnTimer();
      var failed, written := PersistSettlement(result, input);
      error := failed;
    }

    method FinishGameCommand(playerID: int, turnAction: bool, input: Input) returns (error: Option<RoomError>)
      requires Valid() && engine != null
      modifies this
      ensures engine == old(engine)
      ensures Handled(State(), error) == FinishCommand(old(State()), playerID, turnAction, options, input)
    {
      hide EngineOk, Inv, Followed, Cleared;
      EngineShown(engine.State());
      var view := engine.ViewFor(playerID, input.now);
      ViewShows(engine.State(), playerID, input.now);
      hide Views.ViewFor;
      if view.Err? {
        return Some(Internal);
      }
      if turnAction {
        ClearStrikes(playerID);
      }
      error := FollowRound(view.value, turnAction, input);
    }

    method FollowRound(view: View, turnAction: bool, input: Input) returns (error: Option<RoomError>)
      requires Valid() && engine != null
      requires view.phase == engine.State().phase && view.result == engine.State().result
      modifies this
      ensures engine == old(engine)
      ensures Handled(State(), error) == Followed(old(State()), turnAction, options, input)
    {
      hide EngineOk, Inv, ScheduleTurn, Rooms.PersistSettlement, CancelTurn;
      error := None;
      if view.phase == Finished {
        error := SettleRoom(view.result, input);
      } else if turnAction && phase == RoomPlaying {
        ScheduleTurnTimer(input.now);
      }
    }

    method HandleGameCommand(s: Session, move: Move, input: Input) returns (error: Option<RoomError>)
      requires Valid() && InputOk(input)
      modifies this, engine
      ensures engine == old(engine) && Valid()
      ensures Handled(State(), error) == HandleMove(old(State()), s, move, options, input)
    {
      hide FinishCommand, CommandOutcome, CommandOf, IsTurnAction;
      if phase != RoomPlaying || engine == null {
        return Some(Refused(GameNotPlaying));
      }
      var reply := RunMove(s.playerID, move, input);
      if reply.None? {
        return Some(InvalidArgument);
      }
      if reply.value.Failed? {
        return Some(Refused(reply.value.error));
      }
      error := FinishGameCommand(s.playerID, IsTurnAction(move), input);
    }

    method HandleMessage(s: Session, message: Message, input: Input) returns (error: Option<RoomError>)
      requires Valid() && InputOk(input)
      modifies this, engine
      ensures Valid() && (engine == old(engine) || fresh(engine))
      ensures Handled(State(), error) == Rooms.HandleMessage(old(State()), s, message, options, input)
    {
      hide Rooms.HandleReady, Rooms.HandleStart, Rooms.HandleLeave, Rooms.HandleKick, HandleMove, EngineOk, InputOk;
      var index := MemberIndex(s.playerID);
      if index.None? || members[index.value].session != Some(s) || !members[index.value].connected {
        return Some(NotInRoom);
      }
      error := None;
      match message
      case ReadyMessage(ready) => error := HandleReady(s, ready);
      case StartMessage => error := HandleStart(s, input);
      case LeaveMessage => HandleLeave(s, input.now);
      case KickMessage(target) => error := HandleKick(s, target);
      case MoveMessage(move) => error := HandleGameCommand(s, move, input);
      case UnknownMessage => error := Some(InvalidArgument);
    }

    // ----- Timer events -----

    /** Plays the chosen card and, for a wild one, picks its colour at once. */
    method PlayAutomaticCard(playerID: int, cardID: int, picks: Picks, env: Env) returns (reply: Reply)
      requires engine != null && engine.challengeWindow == CHALLENGE_WINDOW && env.window == CHALLENGE_WINDOW
      requires Inv(engine.State(), false) && EnvOk(env) && PicksOk(picks)
      modifies engine
      ensures Inv(engine.State(), false)
      ensures Outcome(engine.State(), reply) == AutoPlay(old(engine.State()), playerID, cardID, picks, env)
    {
      hide Inv, PlayCard, PickColor, EnvOk, PicksOk;
      ghost var g := engine.State();
      PlayedReady(g, playerID, cardID, picks, env);
      reply := engine.Play(playerID, cardID, true, env);
      if reply.Failed? {
        return;
      }
      var view := engine.ViewFor(playerID, env.now);
      if view.Err? || view.value.phase != AwaitingColor {
        return;
      }
      InvShape(engine.State(), false);
      PickedReady(engine.State(), playerID, picks);
      reply := engine.ChooseColor(playerID, COLORS[picks.color]);
    }

    /** Takes a card for want of a playable one, and plays it if it can be played. */
    method DrawAndPlay(playerID: int, picks: Picks, env: Env) returns (reply: Reply)
      requires engine != null && engine.challengeWindow == CHALLENGE_WINDOW && env.window == CHALLENGE_WINDOW
      requires Inv(engine.State(), false) && EnvOk(env) && PicksOk(picks)
      modifies engine
      ensures Inv(engine.State(), false)
      ensures Shape(old(engine.State()))
      ensures var drawn := DrawCard(old(engine.State()), playerID, env);
              && Inv(drawn.game, false)
              && Outcome(engine.State(), reply)
                 == if drawn.reply.Drew? && drawn.reply.draw.canPlay && drawn.reply.draw.cards != [] then
                      AutoPlay(drawn.game, playerID, drawn.reply.draw.cards[0].id, picks, env)
                    else drawn
    {
      hide Inv, DrawCard, AutoPlay, EnvOk, PicksOk;
      DrawCardInv(engine.State(), playerID, env, false);
      InvShape(engine.State(), false);
      reply := engine.Draw(playerID, env);
      if !reply.Drew? || !reply.draw.canPlay || |reply.draw.cards| == 0 {
        return;
      }
      reply := PlayAutomaticCard(playerID, reply.draw.cards[0].id, picks, env);
    }

    method PerformAutomaticAction(playerID: int, view: View, picks: Picks, env: Env) returns (reply: Reply)
      requires engine != null && engine.challengeWindow == CHALLENGE_WINDOW && env.window == CHALLENGE_WINDOW
      requires Inv(engine.State(), false) && EnvOk(env) && PicksOk(picks)
      modifies engine
      ensures Inv(engine.State(), false)
      ensures Outcome(engine.State(), reply) == AutoAct(old(engine.State()), playerID, view, picks, env)
    {
      ghost var g := engine.State();
      assert picks.color < |COLORS| && forall n: nat :: n > 0 ==> picks.card(n) < n;
      hide Inv, PickColor, PassTurn, DrawCard, AutoPlay, EnvOk, PicksOk;
      AutoActInv(g, playerID, view, picks, env);
      InvShape(g, false);
      match view.phase
      case AwaitingColor => reply := engine.ChooseColor(playerID, COLORS[picks.color]);
      case AwaitingDrawDecision =>
        if |view.playableCardIDs| == 0 {
          reply := engine.Pass(playerID);
        } else {
          reply := PlayAutomaticCard(playerID, view.playableCardIDs[picks.card(|view.playableCardIDs|)], picks, env);
        }
      case Playing =>
        if view.pendingDraw > 0 {
          reply := engine.Draw(playerID, env);
        } else if |view.playableCardIDs| > 0 {
          reply := PlayAutomaticCard(playerID, view.playableCardIDs[picks.card(|view.playableCardIDs|)], picks, env);
        } else {
          reply := DrawAndPlay(playerID, picks, env);
        }
      case _ => reply := Done;
    }

    method FinishAutomatedAction(input: Input)
      requires Valid() && engine != null
      modifies this
      ensures engine == old(engine) && State() == FinishAutomated(old(State()), options, input)
    {
      hide EngineOk, Inv, ScheduleTurn, Rooms.PersistSettlement, CancelTurn;
      EngineShown(engine.State());
      var view, actor := CurrentActorView(input.now);
      ActorUnfinished(members, engine.State());
      if actor.None? && |members| > 0 {
        var first := engine.ViewFor(members[0].playerID, input.now);
        view := if first.Ok? then Some(first.value) else None;
      }
      if view.Some? && view.value.phase == Finished {
        var _ := SettleRoom(view.value.result, input);
      } else if phase == RoomPlaying {
        ScheduleTurnTimer(input.now);
      }
    }

    /** A timeout counts against the player; too many in a row hand his seat to the server. */
    method Strike(index: nat, kind: TurnKind)
      requires index < |members|
      modifies this`members
      ensures members == old(members)[index := Rooms.Struck(old(members)[index], kind, options)]
    {
      if kind == TurnTimeout {
        var strikes := members[index].strikes + 1;
        members := members[index := members[index].(strikes := strikes)];
        if strikes >= options.strikeLimit {
          members := members[index := members[index].(autoPlay := true)];
        }
      }
    }

    method HandleAutomatedTurn(kind: TurnKind, token: nat, input: Input)
      requires Valid() && InputOk(input)
      modifies this, engine
      ensures engine == old(engine) && Valid()
      ensures State() == HandleTurnEvent(old(State()), kind, token, options, input)
    {
      hide EngineOk, Inv, InputOk, ScheduleTurn, FinishAutomated, AutoOutcome, Actor, Views.ViewFor, Rooms.Struck;
      if token != turnToken || phase != RoomPlaying || engine == null {
        return;
      }
      var view, actor := CurrentActorView(input.now);
      if actor.None? {
        return;
      }
      var index := actor.value;
      var playerID := members[index].playerID;
      Strike(index, kind);
      var reply := ActFor(playerID, view.value, input);
      if reply.Failed? {
        ScheduleTurnTimer(input.now);
        return;
      }
      FinishAutomatedAction(input);
    }

    /** The automatic action for the one who has to act, chosen from what he sees. */
    method ActFor(playerID: int, view: View, input: Input) returns (reply: Reply)
      requires Valid() && InputOk(input) && engine != null && Shape(engine.State())
      requires SeatOf(engine.State().players, playerID).Some?
      requires view == Views.ViewFor(engine.State(), playerID, input.now).value
      modifies engine
      ensures Valid()
      ensures Outcome(engine.State(), reply) == AutoOutcome(old(engine.State()), playerID, input)
    {
      hide EngineOk, Inv, InputOk, AutoAct, AutoOutcome, Views.ViewFor;
      EngineReady(engine.State(), input);
      AutoOutcomeIs(engine.State(), playerID, view, input);
      reply := PerformAutomaticAction(playerID, view, input.picks, EnvOf(input));
      EngineAgain(engine.State());
    }

    // ----- The loop's body -----

    /** Carries out one mailbox command; `stop` tells the loop to leave. */
    method Handle(command: RoomCommand, input: Input) returns (error: Option<RoomError>, stop: bool)
      requires Valid() && InputOk(input)
      modifies this, engine
      ensures Valid() && (engine == old(engine) || fresh(engine))
      ensures Handled(State(), error) == Execute(old(State()), command, options, input)
      ensures stop <==> command.Stop? || State().destroyed
    {
      hide EngineOk, InputOk, Rooms.HandleMessage, Rooms.TryJoin, Rooms.HandleDisconnect, Rooms.TryReconnect, HandleTurnEvent,
           HandleEmptyEvent, ScheduleEmpty;
      error, stop := None, false;
      match command {
        case Stop =>
          CancelTurnTimer();
          CancelEmptyRoomTimer();
          stop := true;
        case Disconnect(who) => HandleDisconnect(who, input.now);
        case Reconnect(who) => error := TryReconnect(who, input.now);
        case Timer(TurnEvent(kind, token)) => HandleAutomatedTurn(kind, token, input);
        case Timer(EmptyEvent(token)) => stop := HandleEmptyRoomTimeout(token);
        case Join(s) => error := TryJoin(s);
        case TakeRoomSnapshot => ScheduleEmptyRoomTimer();
        case FromPlayer(s, message) => error := HandleMessage(s, message, input);
      }
      stop := stop || destroyed;
    }

    // ----- Snapshots -----

    method BuildRoomSnapshot(now: int) returns (s: RoomSnapshot)
      requires Valid()
      modifies this`snapshotRevision
      ensures s == BuildSnapshot(old(State()), now)
      ensures State() == old(State()).(revision := old(snapshotRevision) + 1)
    {
      hide Inv, TakeSnapshot;
      snapshotRevision := snapshotRevision + 1;
      var saved: seq<MemberSnapshot> := [];
      for i := 0 to |members|
        invariant |saved| == i && forall j :: 0 <= j < i ==> saved[j] == SaveMember(members[j])
      {
        saved := saved + [SaveMember(members[i])];
      }
      assert saved == SaveMembers(members);
      var round: Option<Snapshot> := None;
      if engine != null {
        InvShape(engine.State(), false);
        var e := engine.Snapshot();
        round := Some(e);
      }
      s := RoomSnapshot(ROOM_SCHEMA_VERSION, snapshotRevision, now, id, maxPlayers, ownerID, phase, saved, round,
                        SavedInstant(turnDeadline), matchID, SavedInstant(matchStartedAt), matchSettled);
    }
  }

  lemma WatchedIfConnected(r: RoomState, opts: Options)
    ensures HasConnected(r.members) ==> ScheduleEmpty(r, opts) == r
  {
  }

  lemma SameArm(r: RoomState, w: RoomState, delay: int, kind: TurnKind, now: int)
    requires r.armed <= w.armed && w == r.(emptyTimer := w.emptyTimer, armed := w.armed)
    ensures var s, t := ArmTurn(w, delay, kind, now), ArmTurn(r, delay, kind, now);
            s == t.(emptyTimer := w.emptyTimer, armed := w.armed + t.armed)
  {
    Absorbs(w.armed, r.armed, TurnEvent(kind, r.turnToken + 1));
  }

  lemma Absorbs(all: set<TimerEvent>, some: set<TimerEvent>, e: TimerEvent)
    requires some <= all
    ensures all + some == all && all + (some + {e}) == all + {e}
  {
  }

  /** What starting the turn timer adds does not depend on the collection timer ... */
  lemma SameTurn(r: RoomState, w: RoomState, opts: Options, now: int)
    requires EngineOk(r.engine) && r.armed <= w.armed
    requires w == r.(emptyTimer := w.emptyTimer, armed := w.armed)
    ensures var s, t := ScheduleTurn(w, opts, now), ScheduleTurn(r, opts, now);
            s == t.(emptyTimer := w.emptyTimer, armed := w.armed + t.armed)
  {
    hide EngineOk, Actor, ArmTurn;
    assert w.armed + r.armed == w.armed;
    var actor := Actor(r.members, r.engine);
    if r.phase == RoomPlaying && actor.Some? {
      var m := r.members[actor.value];
      SameArm(r, w, DelayFor(m, opts), KindFor(m), now);
    }
  }

  /** ... and the other way round. */
  lemma SameWatch(r: RoomState, t: RoomState, opts: Options)
    requires r.armed <= t.armed
    requires t == r.(turnTimer := t.turnTimer, turnToken := t.turnToken, turnDeadline := t.turnDeadline, armed := t.armed)
    ensures var s, w := ScheduleEmpty(t, opts), ScheduleEmpty(r, opts);
            s == t.(emptyTimer := w.emptyTimer, armed := t.armed + w.armed)
  {
    hide HasConnected;
    assert t.armed + r.armed == t.armed;
  }

  /** The two timers do not meet, so it does not matter which is started first. */
  lemma TimersCommute(r: RoomState, opts: Options, now: int)
    requires EngineOk(r.engine)
    ensures ScheduleEmpty(ScheduleTurn(r, opts, now), opts) == ScheduleTurn(ScheduleEmpty(r, opts), opts, now)
  {
    hide EngineOk, Actor, HasConnected;
    var scheduled := ScheduleTurn(r, opts, now);
    var watched := ScheduleEmpty(r, opts);
    assert watched == r.(emptyTimer := watched.emptyTimer, armed := watched.armed) && r.armed <= watched.armed;
    assert scheduled == r.(turnTimer := scheduled.turnTimer, turnToken := scheduled.turnToken,
                           turnDeadline := scheduled.turnDeadline, armed := scheduled.armed) && r.armed <= scheduled.armed;
    SameTurn(r, watched, opts, now);
    SameWatch(r, scheduled, opts);
    hide ScheduleTurn, ScheduleEmpty;
    assert watched.armed + scheduled.armed == scheduled.armed + watched.armed;
  }

  lemma ResultKept(g: Game)
    requires Inv(g, false)
    ensures g.phase == Finished ==> g.result.Some?
  {
  }

  lemma StartedEngine(ids: seq<int>, input: Input)
    requires InputOk(input)
    ensures var r := NewGame(ids, 0, input.dealing); r.Ok? ==> EngineOk(Some(r.value))
  {
    NewGameInv(ids, 0, input.dealing);
    hide NewGame;
  }

  lemma EngineShown(g: Game)
    requires EngineOk(Some(g))
    ensures Shape(g) && Inv(g, false) && Inv(g, false)
    ensures g.phase == Finished ==> g.result.Some?
  {
    InvShape(g, false);
    ResultKept(g);
    hide Inv;
  }

  lemma EngineReady(g: Game, input: Input)
    requires EngineOk(Some(g)) && InputOk(input)
    ensures Inv(g, false) && Inv(g, false) && Shape(g) && EnvOk(EnvOf(input))
  {
    InvShape(g, false);
  }

  lemma OutcomeOf(g: Game, command: Command, input: Input)
    requires Inv(g, false) && InputOk(input)
    ensures var o := CommandOutcome(g, command, input);
            && EngineOk(Some(o.game)) && Shape(g)
            && o == match command
                    case Play(playerID, cardID, sayUNO) => PlayCard(g, playerID, cardID, sayUNO, EnvOf(input))
                    case ChooseColor(playerID, color) => PickColor(g, playerID, color)
                    case Draw(playerID) => DrawCard(g, playerID, EnvOf(input))
                    case Pass(playerID) => PassTurn(g, playerID)
                    case CallUNO(playerID) => Call(g, playerID, EnvOf(input))
                    case CatchUNO(challengerID, targetID) => Catch(g, challengerID, targetID, EnvOf(input))
                    case ExpireUNO => Expire(g, EnvOf(input))
  {
    InvShape(g, false);
    hide Inv, PlayCard, DrawCard, PassTurn, PickColor, Call, Catch, Expire;
  }

  lemma EngineAgain(g: Game)
    requires Inv(g, false)
    ensures EngineOk(Some(g))
  {
  }

  lemma PlayedReady(g: Game, playerID: int, cardID: int, picks: Picks, env: Env)
    requires Inv(g, false) && EnvOk(env) && PicksOk(picks)
    ensures Inv(g, false) && Shape(g)
    ensures var played := PlayCard(g, playerID, cardID, true, env);
            && Inv(played.game, false) && Shape(played.game)
            && (!played.reply.Failed? ==> SeatOf(played.game.players, playerID).Some?)
  {
    InvShape(g, false);
    PlayCardInv(g, playerID, cardID, true, env, false);
    InvShape(PlayCard(g, playerID, cardID, true, env).game, false);
    Runs.PlaySeats(g, playerID, cardID, true, env);
    PlayerSeated(g, playerID, cardID, env);
    var played := PlayCard(g, playerID, cardID, true, env);
    hide Inv, PlayCard;
    if !played.reply.Failed? {
      var s := SeatOf(g.players, playerID).value;
      assert played.game.players[s].id == playerID;
    }
  }

  lemma PlayerSeated(g: Game, playerID: int, cardID: int, env: Env)
    requires Shape(g)
    ensures !PlayCard(g, playerID, cardID, true, env).reply.Failed? ==> SeatOf(g.players, playerID).Some?
  {
    hide ApplyCardEffect, Discarded;
  }

  lemma PickedReady(g: Game, playerID: int, picks: Picks)
    requires Inv(g, false) && PicksOk(picks)
    ensures picks.color < |COLORS| && Shape(g) && Inv(PickColor(g, playerID, COLORS[picks.color]).game, false)
  {
    InvShape(g, false);
    PickColorInv(g, playerID, COLORS[picks.color], false);
    hide Inv, PickColor;
  }

  /** While somebody has to act the round is not finished. */
  lemma ActorUnfinished(members: seq<Member>, g: Game)
    requires EngineOk(Some(g))
    ensures Shape(g)
    ensures Actor(members, Some(g)).Some? ==> g.phase != Finished
  {
    InvShape(g, false);
    hide Inv;
  }

  lemma AutoOutcomeIs(g: Game, playerID: int, view: View, input: Input)
    requires Inv(g, false) && InputOk(input) && SeatOf(g.players, playerID).Some?
    requires Shape(g) && view == Views.ViewFor(g, playerID, input.now).value
    ensures EnvOk(EnvOf(input)) && PicksOk(input.picks)
    ensures AutoOutcome(g, playerID, input) == AutoAct(g, playerID, view, input.picks, EnvOf(input))
  {
    hide Inv, AutoAct, Views.ViewFor;
  }

  lemma ViewShows(g: Game, playerID: int, now: int)
    requires Shape(g)
    ensures var v := Views.ViewFor(g, playerID, now);
            if SeatOf(g.players, playerID).None? then v.Err?
            else v.Ok? && v.value.phase == g.phase && v.value.result == g.result
  {
    hide PlayableCardIDs, LiveChallenges, PublicPlayers;
  }
}
