/** A room as a value: its members, its game, its timers, and what each mailbox command does to it. */
module Rooms {
  import opened Wrappers
  import opened Cards
  import opened Piles
  import opened Rules
  import opened Invariant
  import opened Preservation
  import opened Setup
  import opened Views
  import opened Automation
  import IdGen
  import opened Settlement

  datatype RoomPhase = RoomWaiting | RoomPlaying | RoomSettled | RoomOther(name: string)

  /** A connection; `sid` is its identity. */
  datatype Session = Session(sid: nat, playerID: int, nickname: string)

  datatype Member = Member(
    playerID: int, nickname: string, ready: bool, connected: bool, autoPlay: bool, strikes: int,
    session: Option<Session>, abandoned: bool)

  datatype TurnKind = TurnTimeout | AutoPlayTurn

  /** What a timer puts into the mailbox when it fires. */
  datatype TimerEvent = TurnEvent(kind: TurnKind, token: nat) | EmptyEvent(token: nat)

  datatype Options = Options(
    turnTimeout: int, managedDelay: int, strikeLimit: int, emptyTTL: int, hasMatches: bool, hasSnapshots: bool)

  predicate OptionsOk(opts: Options) {
    opts.turnTimeout > 0 && opts.managedDelay > 0 && opts.strikeLimit > 0 && opts.emptyTTL > 0
  }

  const MIN_PLAYERS: int := 2
  const MAX_PLAYERS_CAP: int := 6
  const DEFAULT_MAX_PLAYERS: int := 4

  /** `armed` are the timers started so far whose event has not been handed over; stopping a timer may come too late,
      so a stopped one stays among them. */
  datatype RoomState = RoomState(
    id: string,
    maxPlayers: int,
    ownerID: int,
    phase: RoomPhase,
    members: seq<Member>,
    engine: Option<Game>,
    turnTimer: Option<TimerEvent>,
    turnToken: nat,
    turnDeadline: int,
    emptyTimer: Option<TimerEvent>,
    emptyToken: nat,
    armed: set<TimerEvent>,
    matchID: int,
    matchStartedAt: int,
    matchSettled: bool,
    revision: nat,
    destroyed: bool,
    closing: bool)

  datatype Move =
    | PlayMove(cardID: Option<int>, sayUNO: bool)
    | DrawMove
    | PassMove
    | ColorMove(color: Option<Color>)
    | CallMove
    | CatchMove(target: Option<int>)

  /** `None` in a payload is JSON that does not parse. */
  datatype Message =
    | ReadyMessage(ready: Option<bool>)
    | StartMessage
    | LeaveMessage
    | KickMessage(target: Option<int>)
    | MoveMessage(move: Move)
    | UnknownMessage

  datatype RoomCommand =
    | FromPlayer(session: Session, message: Message)
    | Join(session: Session)
    | Disconnect(who: Option<Session>)
    | Reconnect(who: Option<Session>)
    | Timer(event: TimerEvent)
    | TakeRoomSnapshot
    | Stop

  datatype RoomError =
    | NotInRoom | AlreadyPlaying | NotOwner | NotReady | InvalidArgument | Internal | RoomFull | AlreadyInRoom
    | RoomClosed | StoreFailed | Refused(error: Error)

  /** What a command reads from outside: the clock, the shuffles, the random picks, the answers of the id generator in
      the order it is asked, and whether the transaction of a match write succeeds. */
  datatype Input = Input(
    now: int, shuffle: Shuffle, dealing: nat -> Shuffle, picks: Picks, ids: nat -> Result<int, IdGen.IdError>, stored: bool)

  ghost predicate InputOk(input: Input) {
    && input.now != ZERO_TIME && input.now + CHALLENGE_WINDOW != ZERO_TIME
    && Permuting(input.shuffle) && (forall i :: Permuting(input.dealing(i))) && PicksOk(input.picks)
    && (forall i :: input.ids(i).Ok? ==> input.ids(i).value > 0)
  }

  function EnvOf(input: Input): Env { Env(input.now, CHALLENGE_WINDOW, input.shuffle) }

  datatype Handled = Handled(room: RoomState, error: Option<RoomError>)

  // ----- Members -----

  function FindMember(members: seq<Member>, id: int): (index: Option<nat>)
    ensures index.Some? ==> index.value < |members| && members[index.value].playerID == id
                            && forall i :: 0 <= i < index.value ==> members[i].playerID != id
    ensures index.None? ==> forall i :: 0 <= i < |members| ==> members[i].playerID != id
  {
    if members == [] then None
    else if members[0].playerID == id then Some(0)
    else match FindMember(members[1..], id)
         case None => None
         case Some(i) => Some(i + 1)
  }

  predicate HasConnected(members: seq<Member>) {
    exists i :: 0 <= i < |members| && members[i].connected && members[i].session.Some?
  }

  function MemberIDs(members: seq<Member>): seq<int> {
    seq(|members|, i requires 0 <= i < |members| => members[i].playerID)
  }

  function SetMember(r: RoomState, index: nat, m: Member): RoomState
    requires index < |r.members|
  {
    r.(members := r.members[index := m])
  }

  ghost predicate EngineOk(engine: Option<Game>) {
    engine.Some? ==> Inv(engine.value, false)
  }

  /** The member who has to act, while a round goes on. */
  ghost function Actor(members: seq<Member>, engine: Option<Game>): (actor: Option<nat>)
    requires EngineOk(engine)
    ensures actor.Some? ==> engine.Some? && actor.value < |members|
                            && SeatOf(engine.value.players, members[actor.value].playerID).Some?
  {
    if engine.None? || members == [] then None
    else
      var g := engine.value;
      InvShape(g, false);
      if SeatOf(g.players, members[0].playerID).None? || g.phase == Finished then None
      else match FindMember(members, ActorID(g))
           case None => None
           case Some(i) => if SeatOf(g.players, ActorID(g)).None? then None else Some(i)
  }

  ghost predicate IsActor(r: RoomState, playerID: int)
    requires EngineOk(r.engine)
  {
    Actor(r.members, r.engine).Some? && r.members[Actor(r.members, r.engine).value].playerID == playerID
  }

  // ----- Timers -----

  function CancelTurn(r: RoomState): RoomState {
    r.(turnTimer := None, turnDeadline := ZERO_TIME, turnToken := r.turnToken + 1)
  }

  function ArmTurn(r: RoomState, delay: int, kind: TurnKind, now: int): RoomState {
    var c := CancelTurn(r);
    if c.phase != RoomPlaying || c.engine.None? || delay <= 0 then c
    else
      var event := TurnEvent(kind, c.turnToken);
      c.(turnDeadline := now + delay, turnTimer := Some(event), armed := c.armed + {event})
  }

  function KindFor(m: Member): TurnKind {
    if m.autoPlay || !m.connected then AutoPlayTurn else TurnTimeout
  }

  function DelayFor(m: Member, opts: Options): int {
    if m.autoPlay || !m.connected then opts.managedDelay else opts.turnTimeout
  }

  ghost function ScheduleTurn(r: RoomState, opts: Options, now: int): (s: RoomState)
    requires EngineOk(r.engine)
    ensures s.engine == r.engine
  {
    if r.phase != RoomPlaying || r.engine.None? then CancelTurn(r)
    else match Actor(r.members, r.engine)
         case None => CancelTurn(r)
         case Some(i) => ArmTurn(r, DelayFor(r.members[i], opts), KindFor(r.members[i]), now)
  }

  function ScheduleEmpty(r: RoomState, opts: Options): RoomState {
    if r.destroyed || opts.emptyTTL <= 0 || HasConnected(r.members) || r.emptyTimer.Some? then r
    else
      var event := EmptyEvent(r.emptyToken);
      r.(emptyTimer := Some(event), armed := r.armed + {event})
  }

  function CancelEmpty(r: RoomState): RoomState {
    r.(emptyTimer := None, emptyToken := r.emptyToken + 1)
  }

  function BeginDestroy(r: RoomState): RoomState {
    CancelEmpty(CancelTurn(r.(closing := true, destroyed := true)))
  }

  // ----- Coming and going -----

  function RemoveMember(r: RoomState, playerID: int, opts: Options): RoomState {
    match FindMember(r.members, playerID)
    case None => r
    case Some(i) =>
      var left := r.(members := RemoveAt(r.members, i));
      if left.members == [] then BeginDestroy(left)
      else
        var owned := if playerID == r.ownerID then
          SetMember(left, 0, left.members[0].(ready := true)).(ownerID := left.members[0].playerID)
        else left;
        ScheduleEmpty(owned, opts)
  }

  function TryJoin(r: RoomState, s: Session): Handled {
    if r.phase != RoomWaiting then Handled(r, Some(AlreadyPlaying))
    else if FindMember(r.members, s.playerID).Some? then Handled(r, Some(AlreadyInRoom))
    else if |r.members| >= r.maxPlayers then Handled(r, Some(RoomFull))
    else
      var m := Member(s.playerID, s.nickname, false, true, false, 0, Some(s), false);
      Handled(CancelEmpty(r.(members := r.members + [m])), None)
  }

  /** The seat stays, without a connection and managed; `abandoned` bars its player from coming back. */
  ghost function Vacate(r: RoomState, index: nat, abandoned: bool, opts: Options, now: int): (s: RoomState)
    requires EngineOk(r.engine) && index < |r.members|
    ensures s.engine == r.engine
  {
    var m := r.members[index];
    var away := SetMember(r, index, m.(session := None, connected := false, autoPlay := true, abandoned := abandoned));
    var watched := ScheduleEmpty(away, opts);
    if IsActor(away, m.playerID) then ScheduleTurn(watched, opts, now) else watched
  }

  ghost function HandleDisconnect(r: RoomState, who: Option<Session>, opts: Options, now: int): (s: RoomState)
    requires EngineOk(r.engine)
    ensures s.engine == r.engine
  {
    if who.None? then r
    else match FindMember(r.members, who.value.playerID)
         case None => r
         case Some(i) =>
           if r.members[i].session != who then r
           else if r.phase == RoomPlaying then Vacate(r, i, r.members[i].abandoned, opts, now)
           else RemoveMember(r, who.value.playerID, opts)
  }

  ghost function TryReconnect(r: RoomState, who: Option<Session>, opts: Options, now: int): (h: Handled)
    requires EngineOk(r.engine)
    ensures h.room.engine == r.engine
  {
    if who.None? then Handled(r, Some(NotInRoom))
    else match FindMember(r.members, who.value.playerID)
         case None => Handled(r, Some(NotInRoom))
         case Some(i) =>
           if r.members[i].abandoned then Handled(r, Some(NotInRoom))
           else
             var m := r.members[i].(session := who, connected := true, autoPlay := false, strikes := 0);
             var back := CancelEmpty(SetMember(r, i, m));
             Handled(if r.phase == RoomPlaying && IsActor(back, m.playerID) then ScheduleTurn(back, opts, now) else back,
                     None)
  }

  // ----- Messages -----

  function HandleReady(r: RoomState, s: Session, ready: Option<bool>): Handled {
    if r.phase != RoomWaiting then Handled(r, Some(AlreadyPlaying))
    else match FindMember(r.members, s.playerID)
         case None => Handled(r, Some(NotInRoom))
         case Some(i) =>
           if ready.None? then Handled(r, Some(InvalidArgument))
           else
             var m := r.members[i];
             Handled(SetMember(r, i, m.(ready := m.playerID == r.ownerID || ready.value)), None)
  }

  predicate AllReady(members: seq<Member>) {
    forall i :: 0 <= i < |members| ==> members[i].ready
  }

  /** Clears the match fields and, with a match store, writes the match first. */
  function PersistStart(r: RoomState, opts: Options, input: Input): (h: Handled)
    ensures h.room.engine == r.engine
  {
    var cleared := r.(matchID := 0, matchStartedAt := ZERO_TIME, matchSettled := false);
    if !opts.hasMatches then Handled(cleared, None)
    else if input.ids(0).Err? || !input.stored then Handled(cleared, Some(StoreFailed))
    else Handled(cleared.(matchID := input.ids(0).value, matchStartedAt := input.now), None)
  }

  lemma DealtEngine(ids: seq<int>, dealing: nat -> Shuffle)
    requires forall i :: Permuting(dealing(i))
    ensures var game := NewGame(ids, 0, dealing); game.Ok? ==> EngineOk(Some(game.value))
  {
    NewGameInv(ids, 0, dealing);
    hide NewGame, OpeningHands, ValidPlayerIDs;
  }

  ghost function HandleStart(r: RoomState, s: Session, opts: Options, input: Input): (h: Handled)
    requires InputOk(input)
    ensures EngineOk(r.engine) ==> EngineOk(h.room.engine)
  {
    hide NewGame, EngineOk, AllReady, PersistStart, ScheduleTurn;
    if s.playerID != r.ownerID then Handled(r, Some(NotOwner))
    else if r.phase != RoomWaiting then Handled(r, Some(AlreadyPlaying))
    else if |r.members| < MIN_PLAYERS || !AllReady(r.members) then Handled(r, Some(NotReady))
    else match NewGame(MemberIDs(r.members), 0, input.dealing)
         case Err(_) => Handled(r, Some(Internal))
         case Ok(g) =>
           var p := PersistStart(r, opts, input);
           if p.error.Some? then p
           else
             DealtEngine(MemberIDs(r.members), input.dealing);
             Handled(ScheduleTurn(p.room.(engine := Some(g), phase := RoomPlaying), opts, input.now), None)
  }

  ghost function HandleLeave(r: RoomState, s: Session, opts: Options, now: int): (left: RoomState)
    requires EngineOk(r.engine)
    ensures left.engine == r.engine
  {
    if r.phase == RoomPlaying then
      match FindMember(r.members, s.playerID)
      case None => r
      case Some(i) => Vacate(r, i, true, opts, now)
    else RemoveMember(r, s.playerID, opts)
  }

  function HandleKick(r: RoomState, s: Session, target: Option<int>, opts: Options): Handled {
    if s.playerID != r.ownerID then Handled(r, Some(NotOwner))
    else if r.phase != RoomWaiting then Handled(r, Some(AlreadyPlaying))
    else if target.None? || target.value == 0 || target.value == r.ownerID then Handled(r, Some(InvalidArgument))
    else if FindMember(r.members, target.value).None? then Handled(r, Some(NotInRoom))
    else Handled(RemoveMember(r, target.value, opts), None)
  }

  // ----- The game -----

  /** The engine command a message asks for; `None` for a payload that is refused. */
  function CommandOf(playerID: int, move: Move): Option<Command> {
    match move
    case PlayMove(cardID, sayUNO) =>
      if cardID.None? || cardID.value == 0 then None else Some(Play(playerID, cardID.value, sayUNO))
    case DrawMove => Some(Draw(playerID))
    case PassMove => Some(Pass(playerID))
    case ColorMove(color) => if color.None? then None else Some(ChooseColor(playerID, color.value))
    case CallMove => Some(CallUNO(playerID))
    case CatchMove(target) =>
      if target.None? || target.value <= 0 then None else Some(CatchUNO(playerID, target.value))
  }

  predicate IsTurnAction(move: Move) { !move.CallMove? && !move.CatchMove? }

  /** All ids are issued, the store finds nothing wrong with the rows, and its transaction succeeds. */
  ghost predicate SettlementWritten(r: RoomState, result: RoundResult, input: Input) {
    && AllIssued(input.ids, |result.players|)
    && ValidSettlement(FinishedMatch(r.matchID, r.id, r.matchStartedAt, result, input.now),
                       Rows(r.matchID, result, IssuedIDs(input.ids, |result.players|), input.now))
    && input.stored
  }

  /** Writes the settlement of the round, unless there is no match or it has been written. */
  ghost function PersistSettlement(r: RoomState, opts: Options, input: Input): Handled {
    if !opts.hasMatches || r.matchID == 0 || r.matchSettled || r.engine.None? || r.engine.value.result.None? then
      Handled(r, None)
    else if SettlementWritten(r, r.engine.value.result.value, input) then Handled(r.(matchSettled := true), None)
    else Handled(r, Some(StoreFailed))
  }

  /** A turn action of his own clears a player's strikes and gives him his seat back. */
  function Cleared(r: RoomState, playerID: int): RoomState {
    match FindMember(r.members, playerID)
    case None => r
    case Some(i) => SetMember(r, i, r.members[i].(strikes := 0, autoPlay := false))
  }

  /** The room follows the game: a finished round settles it, otherwise a turn action starts the next turn's timer. */
  ghost function Followed(r: RoomState, turnAction: bool, opts: Options, input: Input): (h: Handled)
    requires EngineOk(r.engine) && r.engine.Some?
    ensures h.room.engine == r.engine
  {
    if r.engine.value.phase == Finished then
      PersistSettlement(CancelTurn(r.(phase := RoomSettled)), opts, input)
    else
      Handled(if turnAction && r.phase == RoomPlaying then ScheduleTurn(r, opts, input.now) else r, None)
  }

  ghost function FinishCommand(r: RoomState, playerID: int, turnAction: bool, opts: Options, input: Input): (h: Handled)
    requires EngineOk(r.engine) && r.engine.Some?
    ensures h.room.engine == r.engine
  {
    if SeatOf(r.engine.value.players, playerID).None? then Handled(r, Some(Internal))
    else Followed(if turnAction then Cleared(r, playerID) else r, turnAction, opts, input)
  }

  /** A command's effect on the game. */
  ghost function CommandOutcome(g: Game, command: Command, input: Input): (o: Outcome)
    requires Inv(g, false) && InputOk(input)
    ensures Inv(o.game, false)
  {
    InvShape(g, false);
    ApplyInv(g, command, EnvOf(input), false);
    Apply(g, command, EnvOf(input))
  }

  ghost function HandleMove(r: RoomState, s: Session, move: Move, opts: Options, input: Input): (h: Handled)
    requires EngineOk(r.engine) && InputOk(input)
    ensures EngineOk(h.room.engine)
  {
    if r.phase != RoomPlaying || r.engine.None? then Handled(r, Some(Refused(GameNotPlaying)))
    else match CommandOf(s.playerID, move)
         case None => Handled(r, Some(InvalidArgument))
         case Some(command) =>
           var o := CommandOutcome(r.engine.value, command, input);
           var moved := r.(engine := Some(o.game));
           if o.reply.Failed? then Handled(moved, Some(Refused(o.reply.error)))
           else FinishCommand(moved, s.playerID, IsTurnAction(move), opts, input)
  }

  ghost function HandleMessage(r: RoomState, s: Session, message: Message, opts: Options, input: Input): (h: Handled)
    requires EngineOk(r.engine) && InputOk(input)
    ensures EngineOk(h.room.engine)
  {
    match FindMember(r.members, s.playerID)
    case None => Handled(r, Some(NotInRoom))
    case Some(i) =>
      if r.members[i].session != Some(s) || !r.members[i].connected then Handled(r, Some(NotInRoom))
      else match message
           case ReadyMessage(ready) => HandleReady(r, s, ready)
           case StartMessage => HandleStart(r, s, opts, input)
           case LeaveMessage => Handled(HandleLeave(r, s, opts, input.now), None)
           case KickMessage(target) => HandleKick(r, s, target, opts)
           case MoveMessage(move) => HandleMove(r, s, move, opts, input)
           case UnknownMessage => Handled(r, Some(InvalidArgument))
  }

  // ----- Timer events -----

  ghost function FinishAutomated(r: RoomState, opts: Options, input: Input): (s: RoomState)
    requires EngineOk(r.engine) && r.engine.Some?
    ensures s.engine == r.engine
  {
    var g := r.engine.value;
    if r.members != [] && SeatOf(g.players, r.members[0].playerID).Some? && g.phase == Finished then
      PersistSettlement(CancelTurn(r.(phase := RoomSettled)), opts, input).room
    else if r.phase == RoomPlaying then ScheduleTurn(r, opts, input.now)
    else r
  }

  /** A timeout is a strike; enough of them in a row hand the seat to the server. */
  function Struck(m: Member, kind: TurnKind, opts: Options): Member {
    if kind == TurnTimeout then
      m.(strikes := m.strikes + 1, autoPlay := m.autoPlay || m.strikes + 1 >= opts.strikeLimit)
    else m
  }

  /** The automatic action for a seated player. */
  ghost function AutoOutcome(g: Game, playerID: int, input: Input): (o: Outcome)
    requires Inv(g, false) && InputOk(input) && SeatOf(g.players, playerID).Some?
    ensures Inv(o.game, false)
  {
    InvShape(g, false);
    var view := ViewFor(g, playerID, input.now).value;
    AutoActInv(g, playerID, view, input.picks, EnvOf(input));
    AutoAct(g, playerID, view, input.picks, EnvOf(input))
  }

  ghost function HandleTurnEvent(r: RoomState, kind: TurnKind, token: nat, opts: Options, input: Input): (s: RoomState)
    requires EngineOk(r.engine) && InputOk(input)
    ensures EngineOk(s.engine)
  {
    if token != r.turnToken || r.phase != RoomPlaying || r.engine.None? then r
    else match Actor(r.members, r.engine)
         case None => r
         case Some(i) =>
           var o := AutoOutcome(r.engine.value, r.members[i].playerID, input);
           var acted := SetMember(r.(engine := Some(o.game)), i, Struck(r.members[i], kind, opts));
           if o.reply.Failed? then ScheduleTurn(acted, opts, input.now)
           else FinishAutomated(acted, opts, input)
  }

  function HandleEmptyEvent(r: RoomState, token: nat): RoomState {
    if token != r.emptyToken || r.destroyed || HasConnected(r.members) then r else BeginDestroy(r)
  }

  /** One mailbox command. */
  ghost function Execute(r: RoomState, command: RoomCommand, opts: Options, input: Input): (h: Handled)
    requires EngineOk(r.engine) && InputOk(input)
    ensures EngineOk(h.room.engine)
  {
    match command
    case FromPlayer(s, message) => HandleMessage(r, s, message, opts, input)
    case Join(s) => TryJoin(r, s)
    case Disconnect(who) => Handled(HandleDisconnect(r, who, opts, input.now), None)
    case Reconnect(who) => TryReconnect(r, who, opts, input.now)
    case Timer(TurnEvent(kind, token)) => Handled(HandleTurnEvent(r, kind, token, opts, input), None)
    case Timer(EmptyEvent(token)) => Handled(HandleEmptyEvent(r, token), None)
    case TakeRoomSnapshot => Handled(ScheduleEmpty(r, opts), None)
    case Stop => Handled(CancelEmpty(CancelTurn(r)), None)
  }

  /** A new room with its creator as owner, ready and connected. */
  function NewRoom(id: string, maxPlayers: int, owner: Session): RoomState {
    var seats := if maxPlayers < MIN_PLAYERS || maxPlayers > MAX_PLAYERS_CAP then DEFAULT_MAX_PLAYERS else maxPlayers;
    RoomState(id, seats, owner.playerID, RoomWaiting,
              [Member(owner.playerID, owner.nickname, true, true, false, 0, Some(owner), false)], None,
              None, 0, ZERO_TIME, None, 0, {}, 0, ZERO_TIME, false, 0, false, false)
  }
}
