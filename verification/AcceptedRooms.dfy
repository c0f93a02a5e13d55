/** Which of the records that pass the check of saved rooms a room can go on from, and what happens with the others. */
module AcceptedRooms {
  import opened Wrappers
  import opened Cards
  import opened Piles
  import opened Rules
  import opened Invariant
  import opened Snapshots
  import opened Automation
  import opened Rooms
  import opened RoomInvariant
  import opened RoomSnapshots
  import opened Mailboxes
  import opened MailboxRuns
  import opened RoomRuns

  /** What the check does not ask: that a match has a real starting time, and that the engine of a playing room neither is
      finished nor waits for an opening colour with a player already out. */
  predicate Sound(s: RoomSnapshot) {
    && (s.matchID > 0 ==> s.matchStartedAt != Some(ZERO_TIME))
    && (s.engine.Some? ==> s.engine.value.phase != Finished && !DeadOpening(s.engine.value))
  }

  /** An accepted record restores to a room in order exactly when it is sound. */
  lemma AcceptedRoomIff(recordID: string, s: RoomSnapshot, opts: Options, now: int)
    requires RestoreRoom(recordID, s, opts, now).Ok?
    ensures RoomInv(RestoreRoom(recordID, s, opts, now).value) <==> Sound(s)
  {
    RestoredParts(recordID, s, opts, now);
    var r := RestoreRoom(recordID, s, opts, now).value;
    RestoredMembersOk(recordID, s);
    hide RestoreRoom, ValidMembers, MembersOk, OwnerIn, RestoreMembers;
    if s.phase == RoomPlaying {
      EngineOkIff(s.engine.value);
      hide ValidSnapshot, DeadOpening, EngineOk;
    } else {
      hide ValidSnapshot, DeadOpening;
    }
  }

  /** The pieces of a restored room. */
  lemma RestoredParts(recordID: string, s: RoomSnapshot, opts: Options, now: int)
    requires RestoreRoom(recordID, s, opts, now).Ok?
    ensures ValidRoomSnapshot(recordID, s) && (s.phase == RoomWaiting || s.phase == RoomPlaying)
    ensures s.engine.Some? <==> s.phase == RoomPlaying
    ensures s.engine.Some? ==> ValidSnapshot(s.engine.value) && Shape(Restored(s.engine.value))
    ensures var r := RestoreRoom(recordID, s, opts, now).value;
            && r.id == s.roomID && r.maxPlayers == s.maxPlayers && r.ownerID == s.ownerID && r.phase == s.phase
            && r.members == RestoreMembers(s.members, s.phase)
            && r.engine == (if s.engine.Some? then Some(Restored(s.engine.value)) else None)
            && r.matchID == s.matchID && r.matchSettled == s.matchSettled
            && r.matchStartedAt == (if s.matchStartedAt.Some? then s.matchStartedAt.value else ZERO_TIME)
            && !r.destroyed && !r.closing
  {
    if s.engine.Some? && ValidSnapshot(s.engine.value) {
      SnapshotRestored(s.engine.value);
    }
    hide ValidSnapshot, Restored, RestoreMembers, ValidMembers, Shape;
  }

  lemma RestoredMembersOk(recordID: string, s: RoomSnapshot)
    requires ValidFrame(recordID, s) && ValidMembers(s)
    ensures MembersOk(RestoreMembers(s.members, s.phase), s.maxPlayers)
    ensures OwnerIn(RestoreMembers(s.members, s.phase), s.ownerID)
    ensures ValidIdle(s) && s.phase == RoomWaiting ==> Unmanaged(RestoreMembers(s.members, s.phase))
  {
    hide Blank;
    var members := RestoreMembers(s.members, s.phase);
    assert forall i :: 0 <= i < |members| ==> members[i] == RestoreMember(s.members[i], s.phase);
    var i :| 0 <= i < |s.members| && s.members[i].playerID == s.ownerID;
    assert members[i].playerID == s.ownerID;
  }

  /** A checked engine can be played on from exactly when it is no dead opening. */
  lemma EngineOkIff(e: Snapshot)
    requires ValidSnapshot(e)
    ensures EngineOk(Some(Restored(e))) <==> !DeadOpening(e)
  {
    if DeadOpening(e) {
      assert Restored(e).pendingColor.Some?;
    } else {
      RestoredInv(e);
    }
    hide ValidCards, Conserved;
  }

  // ----- A playing room around a finished engine -----

  /** The room says a round is on, its engine says it is over. */
  ghost predicate Stuck(r: RoomState) {
    r.phase == RoomPlaying && r.engine.Some? && r.engine.value.phase == Finished && EngineOk(r.engine)
  }

  ghost predicate StuckLike(r: RoomState, r': RoomState) {
    r'.phase == r.phase && r'.engine == r.engine
  }

  lemma NobodyActs(r: RoomState)
    requires Stuck(r)
    ensures Actor(r.members, r.engine).None?
  {
    hide Inv;
  }

  /** Whoever the members are, in a finished round nobody has to act. */
  lemma NoActorEither(r: RoomState, members: seq<Member>)
    requires Stuck(r)
    ensures Actor(members, r.engine).None?
  {
    NobodyActs(r.(members := members));
  }

  lemma StuckMove(r: RoomState, s: Session, move: Move, opts: Options, input: Input)
    requires Stuck(r) && InputOk(input)
    ensures StuckLike(r, HandleMove(r, s, move, opts, input).room)
    ensures HandleMove(r, s, move, opts, input).error.Some?
  {
    var command := CommandOf(s.playerID, move);
    if command.Some? {
      FinishedRefuses(r.engine.value, command.value, EnvOf(input));
    }
    hide Inv, Apply, FinishCommand, InputOk;
  }

  /** A finished engine refuses every command a message can ask for. */
  lemma FinishedRefuses(g: Game, command: Command, env: Env)
    requires Shape(g) && g.phase == Finished && !command.ExpireUNO?
    ensures Apply(g, command, env) == Outcome(g, Failed(GameNotPlaying))
  {
  }

  lemma StuckMessage(r: RoomState, s: Session, message: Message, opts: Options, input: Input)
    requires Stuck(r) && InputOk(input)
    ensures StuckLike(r, HandleMessage(r, s, message, opts, input).room)
  {
    hide HandleMove, EngineOk, InputOk, Actor;
    match message
    case MoveMessage(move) => StuckMove(r, s, move, opts, input);
    case LeaveMessage =>
      var i := FindMember(r.members, s.playerID);
      if i.Some? { StuckVacate(r, i.value, true, opts, input.now); }
      hide Vacate;
    case _ => hide HandleLeave;
  }

  lemma StuckVacate(r: RoomState, i: nat, abandoned: bool, opts: Options, now: int)
    requires Stuck(r) && i < |r.members|
    ensures StuckLike(r, Vacate(r, i, abandoned, opts, now))
  {
    var m := r.members[i].(session := None, connected := false, autoPlay := true, abandoned := abandoned);
    NoActorEither(r, r.members[i := m]);
    hide EngineOk, Actor, HasConnected;
  }

  lemma StuckReconnect(r: RoomState, who: Option<Session>, opts: Options, now: int)
    requires Stuck(r)
    ensures StuckLike(r, TryReconnect(r, who, opts, now).room)
  {
    if who.Some? {
      var i := FindMember(r.members, who.value.playerID);
      if i.Some? {
        NoActorEither(r, r.members[i.value := r.members[i.value].(session := who, connected := true, autoPlay := false, strikes := 0)]);
      }
    }
    hide EngineOk, Actor;
  }

  lemma StuckDisconnect(r: RoomState, who: Option<Session>, opts: Options, now: int)
    requires Stuck(r)
    ensures StuckLike(r, HandleDisconnect(r, who, opts, now))
  {
    if who.Some? {
      var i := FindMember(r.members, who.value.playerID);
      if i.Some? { StuckVacate(r, i.value, r.members[i.value].abandoned, opts, now); }
    }
    hide EngineOk, Vacate, RemoveMember;
  }

  /** No mailbox command gets a stuck room on: its moves are refused, its turn events find nobody who has to act. */
  lemma StuckStep(r: RoomState, command: RoomCommand, opts: Options, input: Input)
    requires Stuck(r) && InputOk(input)
    ensures StuckLike(r, Execute(r, command, opts, input).room)
  {
    NobodyActs(r);
    hide Inv, EngineOk, InputOk, Actor, HandleMessage, HandleDisconnect, TryReconnect, HasConnected, AutoOutcome;
    match command
    case FromPlayer(s, message) => StuckMessage(r, s, message, opts, input);
    case Disconnect(who) => StuckDisconnect(r, who, opts, input.now);
    case Reconnect(who) => StuckReconnect(r, who, opts, input.now);
    case _ =>
  }

  lemma StuckCarried(m: Mailbox, opts: Options, input: Input, saved: bool)
    requires Sane(m) && Stuck(m.room) && m.loop.Busy? && InputOk(input)
    ensures StuckLike(m.room, Carried(m, opts, input, saved).room)
  {
    hide EngineOk, InputOk, Execute, Synced, AnswersOk, NothingBehindStop;
    var command := m.accepted[m.taken - 1].command;
    StuckStep(m.room, command, opts, input);
  }

  lemma StuckPerformed(m: Mailbox, step: Step, opts: Options)
    requires Sane(m) && Stuck(m.room) && Enabled(m, step)
    ensures StuckLike(m.room, Performed(m, step, opts).room)
  {
    hide EngineOk, InputOk, Carried, AnswersOk, NothingBehindStop;
    if m.loop.Busy? && step.Advance? {
      StuckCarried(m, opts, step.input, step.saved);
    }
  }

  /** Over every run a stuck room stays stuck: it never settles, and its engine never changes. */
  lemma {:induction false} StuckForEver(m: Mailbox, steps: seq<Step>, opts: Options)
    requires Sane(m) && Stuck(m.room) && CanRun(m, steps, opts)
    ensures StuckLike(m.room, After(m, steps, opts).room) && Stuck(After(m, steps, opts).room)
    decreases |steps|
  {
    hide Sane, Performed, EngineOk;
    if steps != [] {
      StuckPerformed(m, steps[0], opts);
      StuckForEver(Performed(m, steps[0], opts), steps[1..], opts);
    }
  }

  /** What a stuck room writes restores, if it is accepted, to a stuck room around the same engine. */
  lemma StuckAgain(r: RoomState, at: int, opts: Options, now: int)
    requires Stuck(r) && RestoreRoom(r.id, BuildSnapshot(r, at), opts, now).Ok?
    ensures var back := RestoreRoom(r.id, BuildSnapshot(r, at), opts, now).value;
            Stuck(back) && back.engine == r.engine
  {
    RestoreSnapshot(r.engine.value, false);
    hide ValidRoomSnapshot, Restore, Inv, TakeSnapshot;
  }

  // ----- Any other round can go on -----

  /** In no run does anything about the round change. */
  ghost predicate Frozen(m: Mailbox, opts: Options)
    requires Sane(m)
  {
    forall steps: seq<Step> :: CanRun(m, steps, opts) ==> StuckLike(m.room, After(m, steps, opts).room)
  }

  /** Inputs under which everything outside works: a shuffle that keeps the order, the first pick every time. */
  function Helpful(): Input {
    Input(1, pile => ShuffleResult(true, pile), n => pile => ShuffleResult(true, pile), Picks(n => 0, 0),
          n => Err(IdGen.OutOfRange), true)
  }

  lemma HelpfulOk()
    ensures InputOk(Helpful()) && NeverFails(Helpful().shuffle)
  {
  }

  /** The turn event of a round that is not over changes the round. */
  lemma TurnEventMovesOn(r: RoomState, kind: TurnKind, opts: Options, input: Input)
    requires r.phase == RoomPlaying && r.engine.Some? && EngineOk(r.engine) && r.engine.value.phase != Finished
    requires SeatsMatch(r.engine.value.players, r.members) && DistinctMembers(r.members)
    requires InputOk(input) && NeverFails(input.shuffle)
    ensures HandleTurnEvent(r, kind, r.turnToken, opts, input).engine != r.engine
  {
    var g := r.engine.value;
    ActorIsCurrent(r.members, g);
    var id := r.members[g.currentSeat].playerID;
    AutoActMovesOn(g, input.picks, EnvOf(input), input.now);
    AutoActDone(g, input.picks, EnvOf(input), input.now);
    assert AutoOutcome(g, id, input).game != g;
    hide Inv, EngineOk, Actor, AutoOutcome, ScheduleTurn, Struck, InputOk, AutoAct, Views.ViewFor, PersistSettlement, CancelTurn;
  }

  /** A restored round that is not over is moved on by its own timer: it fires, and the loop takes and carries out the
      event. */
  lemma TimerMovesOn(m: Mailbox, opts: Options) returns (steps: seq<Step>)
    requires Sane(m) && m == Begin(m.room, m.record, false)
    requires m.room.phase == RoomPlaying && m.room.engine.Some? && m.room.engine.value.phase != Finished
    requires SeatsMatch(m.room.engine.value.players, m.room.members) && DistinctMembers(m.room.members)
    requires m.room.turnToken == 1 && m.room.armed == {TurnEvent(AutoPlayTurn, 1)} && !m.room.closing && !m.room.destroyed
    ensures CanRun(m, steps, opts) && After(m, steps, opts).room.engine != m.room.engine
  {
    var event := TurnEvent(AutoPlayTurn, 1);
    var input := Helpful();
    HelpfulOk();
    hide EngineOk, AnswersOk, NothingBehindStop, InputOk, Execute, Synced, Counted, Helpful;
    var fired := Performed(m, Fire(event), opts);
    assert fired.accepted == [Job(Timer(event), false)] && fired.taken == 0 && fired.loop.Idle?;
    assert fired.room == m.room.(armed := {});
    var taken := Performed(fired, Advance(input, false), opts);
    assert taken == fired.(taken := 1, loop := Busy);
    var carried := Performed(taken, Advance(input, false), opts);
    CarriedEngine(taken, event, opts, input);
    steps := [Fire(event), Advance(input, false), Advance(input, false)];
    assert steps[1..] == [Advance(input, false), Advance(input, false)];
    assert steps[1..][1..] == [Advance(input, false)];
    assert steps[1..][1..][1..] == [];
    hide Performed;
    assert CanRun(carried, [], opts);
    assert CanRun(taken, [Advance(input, false)], opts);
    assert CanRun(fired, steps[1..], opts);
    assert After(taken, [Advance(input, false)], opts) == After(carried, [], opts);
  }

  lemma CarriedEngine(m: Mailbox, event: TimerEvent, opts: Options, input: Input)
    requires Sane(m) && m.loop.Busy? && m.accepted == [Job(Timer(event), false)] && m.taken == 1
    requires event.TurnEvent? && event.token == m.room.turnToken
    requires m.room.phase == RoomPlaying && m.room.engine.Some? && m.room.engine.value.phase != Finished
    requires SeatsMatch(m.room.engine.value.players, m.room.members) && DistinctMembers(m.room.members)
    requires InputOk(input) && NeverFails(input.shuffle)
    ensures Carried(m, opts, input, false).room.engine != m.room.engine
  {
    TurnEventMovesOn(m.room, event.kind, opts, input);
    hide EngineOk, AnswersOk, NothingBehindStop, InputOk, Synced, HandleTurnEvent, SeatsMatch;
  }

  /** A playing room restored from an accepted record is frozen for ever if and only if the record's engine is finished. */
  lemma FrozenIff(recordID: string, s: RoomSnapshot, record: Option<RoomSnapshot>, opts: Options, now: int)
    requires OptionsOk(opts) && RestoreRoom(recordID, s, opts, now).Ok?
    requires s.engine.Some? && !DeadOpening(s.engine.value)
    ensures Sane(Begin(RestoreRoom(recordID, s, opts, now).value, record, false))
    ensures Frozen(Begin(RestoreRoom(recordID, s, opts, now).value, record, false), opts)
            <==> s.engine.value.phase == Finished
  {
    RestoredParts(recordID, s, opts, now);
    RestoredFields(recordID, s, opts, now);
    RestoredMembersOk(recordID, s);
    EngineOkIff(s.engine.value);
    var r := RestoreRoom(recordID, s, opts, now).value;
    SeatsRestored(s);
    hide RestoreRoom, EngineOk, ValidSnapshot, RestoreMembers, ValidMembers, DeadOpening;
    BeginQueue(r, record, false);
    var m := Begin(r, record, false);
    assert r.engine.value.phase == s.engine.value.phase;
    hide QueueInv;
    if s.engine.value.phase == Finished {
      forall steps: seq<Step> | CanRun(m, steps, opts) ensures StuckLike(m.room, After(m, steps, opts).room) {
        StuckForEver(m, steps, opts);
      }
    } else {
      var steps := TimerMovesOn(m, opts);
      assert !StuckLike(m.room, After(m, steps, opts).room);
    }
  }

  lemma SeatsRestored(s: RoomSnapshot)
    requires ValidActive(s)
    requires s.engine.value.pendingColor.Some? ==> SeatOf(s.engine.value.players, s.engine.value.pendingColor.value.playerID).Some?
    ensures SeatsMatch(Restored(s.engine.value).players, RestoreMembers(s.members, s.phase))
  {
  }

  // ----- At every moment of every run -----

  ghost predicate Agrees(r: RoomState) {
    r.phase == RoomPlaying <==> r.engine.Some? && r.engine.value.phase != Finished
  }

  /** Restored from an accepted record a room and its engine agree at every moment of every run if the record is sound;
      around a finished engine they agree at no moment of any run. */
  lemma AgreesForEver(recordID: string, s: RoomSnapshot, opts: Options, now: int, steps: seq<Step>)
    requires OptionsOk(opts) && RestoreRoom(recordID, s, opts, now).Ok?
    requires s.engine.Some? ==> !DeadOpening(s.engine.value)
    requires s.matchID > 0 ==> s.matchStartedAt != Some(ZERO_TIME)
    ensures Sane(Begin(RestoreRoom(recordID, s, opts, now).value, None, false))
    ensures CanRun(Begin(RestoreRoom(recordID, s, opts, now).value, None, false), steps, opts) ==>
              (Agrees(After(Begin(RestoreRoom(recordID, s, opts, now).value, None, false), steps, opts).room) <==> Sound(s))
  {
    RestoredParts(recordID, s, opts, now);
    AcceptedRoomIff(recordID, s, opts, now);
    RestoredFields(recordID, s, opts, now);
    var r := RestoreRoom(recordID, s, opts, now).value;
    var m := Begin(r, None, false);
    if s.engine.Some? { EngineOkIff(s.engine.value); }
    hide RestoreRoom, EngineOk, ValidSnapshot, RoomInv, DeadOpening, CanRun, ValidRoomSnapshot;
    BeginQueue(r, None, false);
    assert Sane(m);
    hide QueueInv;
    if CanRun(m, steps, opts) {
      if Sound(s) {
        RestoredBegins(recordID, s, None, opts, now);
        hide MailboxInv, Sane, After, RecordOk;
        AfterInv(m, steps, opts);
        InOrderAgrees(After(m, steps, opts));
      } else {
        assert Stuck(r);
        StuckForEver(m, steps, opts);
      }
    }
  }

  lemma InOrderAgrees(m: Mailbox)
    requires MailboxInv(m)
    ensures Agrees(m.room)
  {
    RoomFollowsEngine(m.room);
    hide RoomInv, QueueInv, TimersOk, RecordOk, EventsApart;
  }

  // ----- The other two kinds of record -----

  /** An opening colour with a player already out: the choice is accepted, and what a room would then write passes the
      check of saved rooms but is refused when it is restored. */
  lemma DeadOpeningIsLost(recordID: string, s: RoomSnapshot, color: Color, opts: Options, now: int)
    requires RestoreRoom(recordID, s, opts, now).Ok? && s.engine.Some? && DeadOpening(s.engine.value) && color.Valid()
    ensures Shape(Restored(s.engine.value))
    ensures var o := PickColor(Restored(s.engine.value), s.engine.value.pendingColor.value.playerID, color);
            && o.reply == Done && Shape(o.game)
            && var written := s.(engine := Some(TakeSnapshot(o.game)));
               ValidRoomSnapshot(recordID, written) && RestoreRoom(recordID, written, opts, now) == Err(InvalidEngine)
  {
    RestoredParts(recordID, s, opts, now);
    DeadChoice(s.engine.value, color);
    hide ValidSnapshot, ValidMembers, Restored, PickColor, TakeSnapshot;
  }

  lemma DeadChoice(e: Snapshot, color: Color)
    requires ValidSnapshot(e) && DeadOpening(e) && color.Valid()
    ensures Shape(Restored(e))
    ensures var o := PickColor(Restored(e), e.pendingColor.value.playerID, color);
            && o.reply == Done && Shape(o.game) && TakeSnapshot(o.game).players == e.players
            && !ValidSnapshot(TakeSnapshot(o.game))
  {
    SnapshotRestored(e);
    var g := Restored(e);
    var after := PickColor(g, e.pendingColor.value.playerID, color).game;
    assert after.phase == Playing && after.candidates == e.candidates && after.pendingDraw == 0;
    assert !ValidLifecycle(TakeSnapshot(after));
    hide ValidCards, ValidPending, ValidResult;
  }

  /** A match without a real starting time: the next record of the restored room is refused. */
  lemma UndatedIsLost(recordID: string, s: RoomSnapshot, opts: Options, now: int, at: int)
    requires RestoreRoom(recordID, s, opts, now).Ok? && s.matchID > 0 && s.matchStartedAt == Some(ZERO_TIME)
    requires EngineOk(RestoreRoom(recordID, s, opts, now).value.engine)
    ensures !ValidRoomSnapshot(recordID, BuildSnapshot(RestoreRoom(recordID, s, opts, now).value, at))
  {
    RestoredParts(recordID, s, opts, now);
    hide RestoreRoom, EngineOk, ValidMembers, ValidSnapshot;
  }
}
