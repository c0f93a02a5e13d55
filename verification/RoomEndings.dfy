/** A round that nobody has walked out of can be played to its end in its room, after a restart too. */
module RoomEndings {
  import opened Wrappers
  import opened Piles
  import opened Rules
  import opened Invariant
  import opened Snapshots
  import opened Automation
  import opened Failures
  import opened Endings
  import opened Rooms
  import opened RoomInvariant
  import opened RoomIdentity
  import opened RoomSnapshots
  import opened Mailboxes
  import opened MailboxRuns
  import opened RoomRuns
  import opened AcceptedRooms

  // ----- One command through the mailbox -----

  /** Some run of submitters, timers and loop settles the room. */
  ghost predicate CanSettle(m: Mailbox, opts: Options)
    requires Sane(m)
  {
    exists steps: seq<Step> :: CanRun(m, steps, opts) && After(m, steps, opts).room.phase == RoomSettled
  }

  lemma OneStep(m: Mailbox, step: Step, opts: Options)
    requires Sane(m) && Enabled(m, step)
    ensures CanSettle(Performed(m, step, opts), opts) ==> CanSettle(m, opts)
  {
    hide Sane, Performed, Enabled;
    if CanSettle(Performed(m, step, opts), opts) {
      var steps :| CanRun(Performed(m, step, opts), steps, opts)
                   && After(Performed(m, step, opts), steps, opts).room.phase == RoomSettled;
      assert ([step] + steps)[1..] == steps;
      assert CanRun(m, [step] + steps, opts);
    }
  }

  /** Nothing is waiting, and the room is not being given up. */
  ghost predicate Calm(m: Mailbox) {
    Sane(m) && m.loop.Idle? && m.taken == |m.accepted| && !m.room.closing && !m.room.destroyed
  }

  /** A command that neither stops nor destroys the room is submitted, taken, carried out and answered. */
  lemma CarryOut(m: Mailbox, command: RoomCommand, opts: Options, input: Input) returns (m': Mailbox)
    requires Calm(m) && InputOk(input) && !command.Timer? && !command.Stop? && CommandOk(command)
    requires Sane(m) && !Execute(m.room, command, opts, input).room.destroyed
    ensures Calm(m') && m'.room == Counted(Execute(m.room, command, opts, input).room, opts)
    ensures CanSettle(m', opts) ==> CanSettle(m, opts)
  {
    ExecuteIdentity(m.room, command, opts, input);
    hide EngineOk, AnswersOk, NothingBehindStop, InputOk, Execute, Synced, CanSettle, CommandOk;
    var job := Job(command, false);
    var asked := Performed(m, Submit(job), opts);
    OneStep(m, Submit(job), opts);
    assert asked == m.(accepted := m.accepted + [job]);
    var advance := Advance(input, false);
    var taken := Performed(asked, advance, opts);
    OneStep(asked, advance, opts);
    assert taken == asked.(taken := asked.taken + 1, loop := Busy);
    var carried := Performed(taken, advance, opts);
    OneStep(taken, advance, opts);
    assert carried == CarriedCommand(taken, command, opts, input, false);
    m' := Performed(carried, advance, opts);
    OneStep(carried, advance, opts);
  }

  // ----- Everybody comes back -----

  function SessionFor(id: int): Session { Session(0, id, "") }

  predicate Here(m: Member) { m.connected && m.session == Some(SessionFor(m.playerID)) }

  /** A playing room whose seats are the engine's, from which nobody has walked out. */
  ghost predicate Table(r: RoomState) {
    && r.phase == RoomPlaying && r.engine.Some? && SeatsMatch(r.engine.value.players, r.members)
    && DistinctMembers(r.members) && forall i :: 0 <= i < |r.members| ==> !r.members[i].abandoned
  }

  function WithShuffle(shuffle: Shuffle): Input {
    Input(1, shuffle, n => pile => ShuffleResult(true, pile), Picks(n => 0, 0), n => Err(IdGen.OutOfRange), true)
  }

  lemma WithShuffleOk(shuffle: Shuffle)
    requires Permuting(shuffle)
    ensures InputOk(WithShuffle(shuffle)) && EnvOf(WithShuffle(shuffle)) == At(shuffle)
  {
  }

  lemma Found(members: seq<Member>, i: nat)
    requires DistinctMembers(members) && i < |members|
    ensures FindMember(members, members[i].playerID) == Some(i)
  {
  }

  lemma ComesBack(r: RoomState, i: nat, opts: Options, input: Input)
    requires EngineOk(r.engine) && InputOk(input) && Table(r) && i < |r.members| && !r.destroyed
    ensures var r' := Execute(r, Reconnect(Some(SessionFor(r.members[i].playerID))), opts, input).room;
            && Table(r') && r'.engine == r.engine && |r'.members| == |r.members| && Here(r'.members[i]) && !r'.destroyed
            && (forall j :: 0 <= j < |r.members| && Here(r.members[j]) ==> Here(r'.members[j]))
  {
    hide EngineOk, InputOk, Actor, IsActor, ScheduleTurn;
    Found(r.members, i);
    var s := SessionFor(r.members[i].playerID);
    var m := r.members[i].(session := Some(s), connected := true, autoPlay := false, strikes := 0);
    var back := CancelEmpty(SetMember(r, i, m));
    KeptBySchedule(back, opts, input.now);
    SeatBack(r, i, m);
    hide Table, Here, FindMember;
  }

  lemma SeatBack(r: RoomState, i: nat, m: Member)
    requires Table(r) && i < |r.members| && Here(m) && m.playerID == r.members[i].playerID && !m.abandoned
    ensures forall r': RoomState :: r'.members == r.members[i := m] && r'.phase == r.phase && r'.engine == r.engine ==>
              && Table(r') && |r'.members| == |r.members| && Here(r'.members[i])
              && (forall j :: 0 <= j < |r.members| && Here(r.members[j]) ==> Here(r'.members[j]))
  {
  }

  lemma KeptBySchedule(r: RoomState, opts: Options, now: int)
    requires EngineOk(r.engine)
    ensures var s := ScheduleTurn(r, opts, now);
            s.members == r.members && s.phase == r.phase && s.destroyed == r.destroyed
  {
    hide EngineOk, Actor;
  }

  /** Seat by seat everybody reconnects. */
  lemma {:induction false} AllComeBack(m: Mailbox, i: nat, opts: Options) returns (m': Mailbox)
    requires Calm(m) && Table(m.room) && i <= |m.room.members|
    requires forall j :: 0 <= j < i ==> Here(m.room.members[j])
    ensures Calm(m') && Table(m'.room) && m'.room.engine == m.room.engine && (CanSettle(m', opts) ==> CanSettle(m, opts))
    ensures forall j :: 0 <= j < |m'.room.members| ==> Here(m'.room.members[j])
    decreases |m.room.members| - i
  {
    hide EngineOk, QueueInv, InputOk, Execute, CanSettle, SeatsMatch, DistinctMembers, Here;
    m' := m;
    if i < |m.room.members| {
      ShufflesWork();
      WithShuffleOk(KEEP);
      ComesBack(m.room, i, opts, WithShuffle(KEEP));
      var back := CarryOut(m, Reconnect(Some(SessionFor(m.room.members[i].playerID))), opts, WithShuffle(KEEP));
      m' := AllComeBack(back, i + 1, opts);
    }
  }

  // ----- Turn by turn -----

  ghost predicate AllHere(r: RoomState) { Table(r) && forall i :: 0 <= i < |r.members| ==> Here(r.members[i]) }

  function MoveOf(command: Command): Move {
    match command
    case Play(_, cardID, sayUNO) => PlayMove(Some(cardID), sayUNO)
    case ChooseColor(_, color) => ColorMove(Some(color))
    case Draw(_) => DrawMove
    case _ => PassMove
  }

  function PlayerOf(command: Command): int {
    match command
    case Play(id, _, _) => id
    case ChooseColor(id, _) => id
    case Draw(id) => id
    case Pass(id) => id
    case _ => 0
  }

  lemma MoveMeans(players: seq<Player>, turn: Turn)
    requires TurnOk(players, turn)
    ensures CommandOf(PlayerOf(turn.command), MoveOf(turn.command)) == Some(turn.command)
    ensures Seated(players, PlayerOf(turn.command)) && IsTurnAction(MoveOf(turn.command))
  {
  }

  /** A player's message has exactly the effect of his turn on the game; the end of the round settles the room. */
  lemma TurnInRoom(r: RoomState, turn: Turn, opts: Options)
    requires AllHere(r) && !r.destroyed && EngineOk(r.engine) && r.engine.value.phase != Finished
    requires Inv(r.engine.value, false) && TurnOk(r.engine.value.players, turn)
    ensures InputOk(WithShuffle(turn.shuffle))
    ensures var s := SessionFor(PlayerOf(turn.command));
            var r' := Execute(r, FromPlayer(s, MoveMessage(MoveOf(turn.command))), opts, WithShuffle(turn.shuffle)).room;
            && !r'.destroyed
            && if Took(r.engine.value, turn).phase == Finished then r'.phase == RoomSettled
               else AllHere(r') && r'.engine == Some(Took(r.engine.value, turn))
  {
    var g, id, move := r.engine.value, PlayerOf(turn.command), MoveOf(turn.command);
    var input := WithShuffle(turn.shuffle);
    WithShuffleOk(turn.shuffle);
    MoveMeans(g.players, turn);
    SessionHeard(r, id, move, opts, input);
    MoveInRoom(r, id, move, turn, opts);
    hide Inv, TurnOk, EngineOk, InputOk, HandleMove, HandleMessage, AllHere, Took, WithShuffle;
  }

  lemma SessionHeard(r: RoomState, id: int, move: Move, opts: Options, input: Input)
    requires AllHere(r) && EngineOk(r.engine) && InputOk(input) && Seated(r.engine.value.players, id)
    ensures HandleMessage(r, SessionFor(id), MoveMessage(move), opts, input) == HandleMove(r, SessionFor(id), move, opts, input)
  {
    hide EngineOk, InputOk, HandleMove, HandleMessage;
    var i :| 0 <= i < |r.engine.value.players| && r.engine.value.players[i].id == id;
    Found(r.members, i);
    Heard(r, i, move, opts, input);
  }

  lemma Heard(r: RoomState, i: nat, move: Move, opts: Options, input: Input)
    requires EngineOk(r.engine) && InputOk(input) && i < |r.members| && Here(r.members[i])
    requires FindMember(r.members, r.members[i].playerID) == Some(i)
    ensures var s := SessionFor(r.members[i].playerID);
            HandleMessage(r, s, MoveMessage(move), opts, input) == HandleMove(r, s, move, opts, input)
  {
    hide EngineOk, InputOk, HandleMove, FindMember;
  }

  lemma MoveInRoom(r: RoomState, id: int, move: Move, turn: Turn, opts: Options)
    requires AllHere(r) && !r.destroyed && EngineOk(r.engine) && r.engine.value.phase != Finished
    requires Inv(r.engine.value, false) && TurnOk(r.engine.value.players, turn) && InputOk(WithShuffle(turn.shuffle))
    requires CommandOf(id, move) == Some(turn.command) && Seated(r.engine.value.players, id) && IsTurnAction(move)
    ensures var r' := HandleMove(r, SessionFor(id), move, opts, WithShuffle(turn.shuffle)).room;
            && !r'.destroyed
            && if Took(r.engine.value, turn).phase == Finished then r'.phase == RoomSettled
               else AllHere(r') && r'.engine == Some(Took(r.engine.value, turn))
  {
    var g, input := r.engine.value, WithShuffle(turn.shuffle);
    var h := Took(g, turn);
    WithShuffleOk(turn.shuffle);
    TurnSeats(g, turn);
    RefusedTurn(g, turn);
    var moved := r.(engine := Some(h));
    assert EngineOk(moved.engine);
    hide Inv, TurnOk, EngineOk, InputOk, Took, Apply, WithShuffle, Cleared, Followed, Here;
    assert CommandOutcome(g, turn.command, input).game == h;
    HereCleared(moved, id);
    HereFollowed(Cleared(moved, id), opts, input);
  }

  lemma TurnSeats(g: Game, turn: Turn)
    requires Inv(g, false) && TurnOk(g.players, turn)
    ensures var h := Took(g, turn); |h.players| == |g.players| && forall s :: 0 <= s < |g.players| ==> h.players[s].id == g.players[s].id
  {
    InvShape(g, false);
    Runs.ApplySeats(g, turn.command, At(turn.shuffle));
    hide Inv, Apply;
  }

  lemma RefusedTurn(g: Game, turn: Turn)
    requires Inv(g, false) && TurnOk(g.players, turn)
    ensures Shape(g) && (Apply(g, turn.command, At(turn.shuffle)).reply.Failed? ==> Took(g, turn) == g)
  {
    InvShape(g, false);
    hide Inv, Apply;
    if Apply(g, turn.command, At(turn.shuffle)).reply.Failed? {
      RefusedChangesIff(g, turn.command, At(turn.shuffle));
    }
  }

  lemma HereCleared(r: RoomState, id: int)
    requires AllHere(r)
    ensures AllHere(Cleared(r, id)) && Cleared(r, id) == r.(members := Cleared(r, id).members)
  {
  }

  lemma HereFollowed(r: RoomState, opts: Options, input: Input)
    requires AllHere(r) && EngineOk(r.engine) && !r.destroyed
    ensures var r' := Followed(r, true, opts, input).room;
            && !r'.destroyed && r'.engine == r.engine
            && if r.engine.value.phase == Finished then r'.phase == RoomSettled else AllHere(r')
  {
    KeptBySchedule(r, opts, input.now);
    hide EngineOk, ScheduleTurn, Here, SeatsMatch, DistinctMembers, SettlementWritten;
  }

  /** Turns that end the round, sent one by one as messages, settle the room. */
  lemma {:induction false} PlayedThrough(m: Mailbox, turns: seq<Turn>, opts: Options)
    requires Calm(m) && AllHere(m.room) && Inv(m.room.engine.value, false) && m.room.engine.value.phase != Finished
    requires Ends(m.room.engine.value, turns)
    ensures CanSettle(m, opts)
    decreases |turns|
  {
    hide EngineOk, QueueInv, InputOk, Execute, CanSettle, AllHere, Inv, TurnOk, Took, WithShuffle, SessionFor;
    var turn := turns[0];
    var s := SessionFor(PlayerOf(turn.command));
    assert m.room.engine.Some? by { TableOf(m.room); }
    TurnInRoom(m.room, turn, opts);
    var after := CarryOut(m, FromPlayer(s, MoveMessage(MoveOf(turn.command))), opts, WithShuffle(turn.shuffle));
    if after.room.phase == RoomSettled {
      SettledNow(after, opts);
    } else {
      SameTable(Execute(m.room, FromPlayer(s, MoveMessage(MoveOf(turn.command))), opts, WithShuffle(turn.shuffle)).room, after.room);
      PlayedThrough(after, turns[1..], opts);
    }
  }

  lemma TableOf(r: RoomState)
    requires AllHere(r)
    ensures r.engine.Some?
  {
  }

  lemma SameTable(r: RoomState, r': RoomState)
    requires AllHere(r) && r'.members == r.members && r'.phase == r.phase && r'.engine == r.engine
    ensures AllHere(r')
  {
  }

  lemma SettledNow(m: Mailbox, opts: Options)
    requires Sane(m) && m.room.phase == RoomSettled
    ensures CanSettle(m, opts)
  {
    assert CanRun(m, [], opts) && After(m, [], opts) == m;
  }

  /** A playing room from which nobody has walked out can still be settled if and only if its engine is not finished. */
  lemma CanSettleIff(m: Mailbox, opts: Options)
    requires Calm(m) && Table(m.room)
    ensures CanSettle(m, opts) <==> m.room.engine.value.phase != Finished
  {
    hide QueueInv, InputOk, Execute, CanSettle, Inv, SeatsMatch, DistinctMembers, Here;
    if m.room.engine.value.phase == Finished {
      NeverSettles(m, opts);
    } else {
      var here := AllComeBack(m, 0, opts);
      var g := here.room.engine.value;
      EveryRoundCanEnd(g);
      var turns :| Ends(g, turns);
      PlayedThrough(here, turns, opts);
    }
  }

  /** Whoever has walked out: a playing room around a finished engine can never be settled. */
  lemma NeverSettles(m: Mailbox, opts: Options)
    requires Sane(m) && Stuck(m.room)
    ensures !CanSettle(m, opts)
  {
    forall steps: seq<Step> | CanRun(m, steps, opts) ensures After(m, steps, opts).room.phase != RoomSettled {
      StuckForEver(m, steps, opts);
    }
    hide Sane, EngineOk;
  }

  /** From an accepted record of a round, with an engine that is at no dead opening and with nobody who has walked out, the
      restored room can still be settled if and only if the engine of the record is not finished. */
  lemma RestoredCanSettleIff(recordID: string, s: RoomSnapshot, record: Option<RoomSnapshot>, opts: Options, now: int)
    requires OptionsOk(opts) && RestoreRoom(recordID, s, opts, now).Ok?
    requires s.engine.Some? && !DeadOpening(s.engine.value)
    requires forall i :: 0 <= i < |s.members| ==> !s.members[i].abandoned
    ensures Sane(Begin(RestoreRoom(recordID, s, opts, now).value, record, false))
    ensures CanSettle(Begin(RestoreRoom(recordID, s, opts, now).value, record, false), opts)
            <==> s.engine.value.phase != Finished
  {
    RestoredTable(recordID, s, opts, now);
    var r := RestoreRoom(recordID, s, opts, now).value;
    hide RestoreRoom, EngineOk, DeadOpening, Table, CanSettle;
    BeginQueue(r, record, false);
    hide QueueInv;
    CanSettleIff(Begin(r, record, false), opts);
  }

  lemma RestoredTable(recordID: string, s: RoomSnapshot, opts: Options, now: int)
    requires OptionsOk(opts) && RestoreRoom(recordID, s, opts, now).Ok?
    requires s.engine.Some? && !DeadOpening(s.engine.value)
    requires forall i :: 0 <= i < |s.members| ==> !s.members[i].abandoned
    ensures var r := RestoreRoom(recordID, s, opts, now).value;
            && Table(r) && EngineOk(r.engine) && r.engine.value.phase == s.engine.value.phase && !r.closing && !r.destroyed
  {
    RestoredParts(recordID, s, opts, now);
    RestoredMembersOk(recordID, s);
    EngineOkIff(s.engine.value);
    SeatsRestored(s);
    hide RestoreRoom, EngineOk, ValidSnapshot, ValidMembers, DeadOpening, SeatsMatch;
  }
}
