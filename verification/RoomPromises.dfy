/** What a room promises its players over whole runs, crashes included. */
module RoomPromises {
  import opened Wrappers
  import opened Rules
  import opened Invariant
  import opened Setup
  import opened Settlement
  import opened Rooms
  import opened RoomInvariant
  import opened RoomSnapshots
  import opened RoomTimers
  import opened RoomBinding
  import opened Mailboxes
  import opened MailboxRuns
  import opened RoomRuns

  // ----- Who walked out stays out -----

  /** The round is on or over, and every seat of this player is abandoned. */
  ghost predicate Barred(r: RoomState, id: int) {
    r.phase != RoomWaiting && forall i :: 0 <= i < |r.members| && r.members[i].playerID == id ==> r.members[i].abandoned
  }

  /** A barred player gets in neither by reconnecting nor by joining. */
  lemma BarredIsRefused(r: RoomState, s: Session, opts: Options, now: int)
    requires EngineOk(r.engine) && Barred(r, s.playerID)
    ensures TryReconnect(r, Some(s), opts, now) == Handled(r, Some(NotInRoom))
    ensures TryJoin(r, s) == Handled(r, Some(AlreadyPlaying))
  {
    hide EngineOk, Actor;
  }

  lemma ScheduledMembers(r: RoomState, opts: Options, now: int)
    requires EngineOk(r.engine)
    ensures var s := ScheduleTurn(r, opts, now); s.members == r.members && s.phase == r.phase && s.matchSettled == r.matchSettled
  {
    hide EngineOk, Actor;
  }

  lemma RemovedBarred(r: RoomState, playerID: int, opts: Options, id: int)
    requires Barred(r, id)
    ensures Barred(RemoveMember(r, playerID, opts), id)
  {
    hide RemoveMember;
    RemovedPhase(r, playerID, opts);
    var i := FindMember(r.members, playerID);
    if i.Some? {
      LeftMembers(r, playerID, opts, i.value);
      var left := RemoveAt(r.members, i.value);
      assert forall j :: 0 <= j < |left| ==> left[j] == r.members[if j < i.value then j else j + 1];
    } else {
      RemovedNobody(r, playerID, opts);
    }
    hide FindMember, RemoveAt;
  }

  lemma RemovedPhase(r: RoomState, playerID: int, opts: Options)
    ensures RemoveMember(r, playerID, opts).phase == r.phase
  {
    hide RemoveAt, HasConnected, FindMember;
  }

  lemma RemovedNobody(r: RoomState, playerID: int, opts: Options)
    requires FindMember(r.members, playerID).None?
    ensures RemoveMember(r, playerID, opts) == r
  {
  }

  lemma LeftMembers(r: RoomState, playerID: int, opts: Options, i: nat)
    requires FindMember(r.members, playerID) == Some(i)
    ensures var left, after := RemoveAt(r.members, i), RemoveMember(r, playerID, opts).members;
            after == left || (left != [] && after == left[0 := left[0].(ready := true)])
  {
    hide RemoveAt, HasConnected, FindMember;
  }

  lemma VacatedBarred(r: RoomState, i: nat, abandoned: bool, opts: Options, now: int, id: int)
    requires EngineOk(r.engine) && i < |r.members| && Barred(r, id) && (r.members[i].abandoned ==> abandoned)
    ensures Barred(Vacate(r, i, abandoned, opts, now), id)
  {
    var m := r.members[i].(session := None, connected := false, autoPlay := true, abandoned := abandoned);
    var watched := ScheduleEmpty(SetMember(r, i, m), opts);
    assert watched.members == r.members[i := m] && watched.phase == r.phase && watched.engine == r.engine;
    ScheduledMembers(watched, opts, now);
    hide EngineOk, Actor, HasConnected, ScheduleTurn, IsActor;
  }

  lemma ReconnectBarred(r: RoomState, who: Option<Session>, opts: Options, now: int, id: int)
    requires EngineOk(r.engine) && Barred(r, id)
    ensures Barred(TryReconnect(r, who, opts, now).room, id)
  {
    if who.Some? {
      var i := FindMember(r.members, who.value.playerID);
      if i.Some? {
        var m := r.members[i.value].(session := who, connected := true, autoPlay := false, strikes := 0);
        ScheduledMembers(CancelEmpty(SetMember(r, i.value, m)), opts, now);
      }
    }
    hide EngineOk, Actor, ScheduleTurn, IsActor;
  }

  /** Members with the same players, of whom nobody has been let back. */
  ghost predicate SeatsKept(a: seq<Member>, b: seq<Member>) {
    |a| == |b| && forall i :: 0 <= i < |a| ==> a[i].playerID == b[i].playerID && a[i].abandoned == b[i].abandoned
                                               && a[i].session == b[i].session
  }

  /** What a game command and a turn event do to the members, the phase and the settlement. */
  ghost predicate PlayedOn(r: RoomState, r': RoomState) {
    && SeatsKept(r.members, r'.members)
    && (r'.phase == r.phase || (r.phase == RoomPlaying && r'.phase == RoomSettled))
    && (r'.matchSettled == r.matchSettled || r'.phase == RoomSettled)
    && (r.phase == RoomSettled ==> r'.matchSettled == r.matchSettled)
  }

  lemma PlayedOnSame(r: RoomState)
    ensures PlayedOn(r, r)
  {
  }

  lemma FollowedOn(r0: RoomState, r: RoomState, turnAction: bool, opts: Options, input: Input)
    requires EngineOk(r.engine) && r.engine.Some? && r.phase == RoomPlaying && r0.phase == RoomPlaying
    requires SeatsKept(r0.members, r.members) && r.matchSettled == r0.matchSettled
    ensures PlayedOn(r0, Followed(r, turnAction, opts, input).room)
  {
    ScheduledMembers(r, opts, input.now);
    hide EngineOk, ScheduleTurn, SettlementWritten;
  }

  lemma ClearedSeats(r: RoomState, playerID: int)
    ensures SeatsKept(r.members, r.members) && SeatsKept(r.members, Cleared(r, playerID).members)
    ensures Cleared(r, playerID) == r.(members := Cleared(r, playerID).members)
  {
  }

  lemma RefusedOn(r: RoomState, g: Game)
    ensures PlayedOn(r, r.(engine := Some(g)))
  {
  }

  lemma MovePlaysOn(r: RoomState, s: Session, move: Move, opts: Options, input: Input)
    requires EngineOk(r.engine) && InputOk(input)
    ensures PlayedOn(r, HandleMove(r, s, move, opts, input).room)
  {
    hide EngineOk, InputOk, CommandOutcome, Followed, CommandOf, IsTurnAction, Inv, PlayedOn, SeatsKept, Cleared;
    PlayedOnSame(r);
    var command := CommandOf(s.playerID, move);
    if r.phase == RoomPlaying && r.engine.Some? && command.Some? {
      assert Inv(r.engine.value, false) by { EngineIs(r.engine); }
      var o := CommandOutcome(r.engine.value, command.value, input);
      var moved := r.(engine := Some(o.game));
      EngineIsBack(o.game);
      ClearedSeats(moved, s.playerID);
      RefusedOn(r, o.game);
      FollowedOn(r, moved, IsTurnAction(move), opts, input);
      FollowedOn(r, Cleared(moved, s.playerID), IsTurnAction(move), opts, input);
    }
  }

  lemma EngineIs(engine: Option<Game>)
    requires EngineOk(engine) && engine.Some?
    ensures Inv(engine.value, false)
  {
  }

  lemma EngineIsBack(g: Game)
    requires Inv(g, false)
    ensures EngineOk(Some(g))
  {
  }

  lemma AutomatedOn(r0: RoomState, r: RoomState, opts: Options, input: Input)
    requires EngineOk(r.engine) && r.engine.Some? && r.phase == RoomPlaying && r0.phase == RoomPlaying
    requires SeatsKept(r0.members, r.members) && r.matchSettled == r0.matchSettled
    ensures PlayedOn(r0, FinishAutomated(r, opts, input)) && PlayedOn(r0, ScheduleTurn(r, opts, input.now))
  {
    ScheduledMembers(r, opts, input.now);
    hide EngineOk, ScheduleTurn, SettlementWritten, SeatOf;
  }

  lemma TurnEventPlaysOn(r: RoomState, kind: TurnKind, token: nat, opts: Options, input: Input)
    requires EngineOk(r.engine) && InputOk(input)
    ensures PlayedOn(r, HandleTurnEvent(r, kind, token, opts, input))
  {
    hide Inv, AutoOutcome, InputOk, Actor, EngineOk, FinishAutomated, ScheduleTurn;
    PlayedOnSame(r);
    if token == r.turnToken && r.phase == RoomPlaying && r.engine.Some? && Actor(r.members, r.engine).Some? {
      var i := Actor(r.members, r.engine).value;
      EngineIs(r.engine);
      var o := AutoOutcome(r.engine.value, r.members[i].playerID, input);
      EngineIsBack(o.game);
      var acted := SetMember(r.(engine := Some(o.game)), i, Struck(r.members[i], kind, opts));
      assert SeatsKept(r.members, acted.members);
      hide Struck, SeatsKept, PlayedOn;
      AutomatedOn(r, acted, opts, input);
    }
  }

  lemma PlayedOnBarred(r: RoomState, r': RoomState, id: int)
    requires PlayedOn(r, r') && Barred(r, id)
    ensures Barred(r', id)
  {
  }

  lemma MessageBarred(r: RoomState, s: Session, message: Message, opts: Options, input: Input, id: int)
    requires EngineOk(r.engine) && InputOk(input) && Barred(r, id)
    ensures Barred(HandleMessage(r, s, message, opts, input).room, id)
  {
    hide EngineOk, InputOk, HandleMove, Actor;
    match message
    case MoveMessage(move) =>
      MovePlaysOn(r, s, move, opts, input);
      PlayedOnBarred(r, HandleMove(r, s, move, opts, input).room, id);
    case LeaveMessage =>
      RemovedBarred(r, s.playerID, opts, id);
      var i := FindMember(r.members, s.playerID);
      if i.Some? { VacatedBarred(r, i.value, true, opts, input.now, id); }
      hide Vacate, RemoveMember, Barred;
    case _ => hide HandleLeave, RemoveMember;
  }

  /** No command lets a barred player back in. */
  lemma BarredStep(r: RoomState, command: RoomCommand, opts: Options, input: Input, id: int)
    requires EngineOk(r.engine) && InputOk(input) && Barred(r, id)
    ensures Barred(Execute(r, command, opts, input).room, id)
  {
    hide EngineOk, InputOk, HandleMessage, HandleTurnEvent, TryReconnect, HasConnected, Vacate, RemoveMember;
    match command
    case FromPlayer(s, message) => MessageBarred(r, s, message, opts, input, id);
    case Disconnect(who) =>
      if who.Some? {
        RemovedBarred(r, who.value.playerID, opts, id);
        var i := FindMember(r.members, who.value.playerID);
        if i.Some? { VacatedBarred(r, i.value, r.members[i.value].abandoned, opts, input.now, id); }
      }
    case Reconnect(who) => ReconnectBarred(r, who, opts, input.now, id);
    case Timer(TurnEvent(kind, token)) =>
      TurnEventPlaysOn(r, kind, token, opts, input);
      PlayedOnBarred(r, HandleTurnEvent(r, kind, token, opts, input), id);
    case _ =>
  }

  /** A record of the round in which every seat of this player is abandoned. */
  ghost predicate RecordBars(s: RoomSnapshot, id: int) {
    s.phase == RoomPlaying && forall i :: 0 <= i < |s.members| && s.members[i].playerID == id ==> s.members[i].abandoned
  }

  ghost predicate BarredIn(m: Mailbox, id: int) {
    Barred(m.room, id) && (m.record.Some? ==> RecordBars(m.record.value, id))
  }

  lemma WrittenBars(r: RoomState, at: int, id: int)
    requires EngineOk(r.engine) && Barred(r, id) && r.phase == RoomPlaying
    ensures RecordBars(BuildSnapshot(r, at), id)
  {
    hide EngineOk;
  }

  lemma SyncedBars(r: RoomState, record: Option<RoomSnapshot>, opts: Options, now: int, saved: bool, id: int)
    requires RoomInv(r) && EngineOk(r.engine) && Barred(r, id) && (record.Some? ==> RecordBars(record.value, id))
    ensures var after := Synced(r, record, opts, now, saved); after.Some? ==> RecordBars(after.value, id)
  {
    RoomFollowsEngine(r);
    if r.phase == RoomPlaying { WrittenBars(r, now, id); }
    hide EngineOk, RoomInv, BuildSnapshot;
  }

  lemma CarriedBars(m: Mailbox, opts: Options, input: Input, saved: bool, id: int)
    requires MailboxInv(m) && m.loop.Busy? && InputOk(input) && BarredIn(m, id)
    ensures EngineOk(m.room.engine) && BarredIn(Carried(m, opts, input, saved), id)
  {
    EngineFine(m.room);
    var command := m.accepted[m.taken - 1].command;
    assert !m.room.destroyed;
    hide EngineOk, InputOk, RoomInv, TimersOk, RecordOk, AnswersOk, NothingBehindStop, EventsApart, RecordBars, Barred,
         CarriedStop, CarriedCommand;
    if command.Stop? { StopBars(m, opts, input, saved, id); } else { CommandBars(m, command, opts, input, saved, id); }
  }

  lemma CommandBars(m: Mailbox, command: RoomCommand, opts: Options, input: Input, saved: bool, id: int)
    requires RoomInv(m.room) && EngineOk(m.room.engine) && !m.room.destroyed && InputOk(input) && BarredIn(m, id)
    requires CommandOk(command)
    ensures BarredIn(CarriedCommand(m, command, opts, input, saved), id)
  {
    hide EngineOk, InputOk, RoomInv, Execute, Synced, Counted, RecordBars, Barred;
    BarredStep(m.room, command, opts, input, id);
    ExecutedRoom(m.room, command, opts, input, 0);
    var r' := Execute(m.room, command, opts, input).room;
    SyncedBars(r', m.record, opts, input.now, saved, id);
    CountedFrame(r', opts);
    BarredFrame(r', Counted(r', opts), id);
  }

  lemma StopBars(m: Mailbox, opts: Options, input: Input, saved: bool, id: int)
    requires RoomInv(m.room) && EngineOk(m.room.engine) && !m.room.destroyed && InputOk(input) && BarredIn(m, id)
    ensures BarredIn(CarriedStop(m, opts, input, saved), id)
  {
    hide EngineOk, InputOk, RoomInv, Execute, Synced, Counted, RecordBars, Barred;
    BarredStep(m.room, Stop, opts, input, id);
    SyncedBars(m.room, m.record, opts, input.now, saved, id);
    var r' := Execute(m.room, Stop, opts, input).room;
    BarredFrame(r', r'.(revision := Counted(m.room, opts).revision), id);
  }

  lemma BarredFrame(r: RoomState, r': RoomState, id: int)
    requires Barred(r, id) && r'.members == r.members && r'.phase == r.phase
    ensures Barred(r', id)
  {
  }

  lemma DoBars(m: Mailbox, step: Step, opts: Options, id: int)
    requires MailboxInv(m) && Sane(m) && Enabled(m, step) && BarredIn(m, id)
    ensures BarredIn(Performed(m, step, opts), id)
  {
    hide EngineOk, InputOk, RoomInv, TimersOk, RecordOk, AnswersOk, NothingBehindStop, EventsApart, Carried, RecordBars;
    if m.loop.Busy? && step.Advance? {
      CarriedBars(m, opts, step.input, step.saved, id);
    }
  }

  lemma RestoredBars(s: RoomSnapshot, id: int)
    requires RecordBars(s, id)
    ensures forall i :: 0 <= i < |s.members| && RestoreMembers(s.members, s.phase)[i].playerID == id ==>
                          RestoreMembers(s.members, s.phase)[i].abandoned
  {
  }

  /** A crash brings a barred player back barred. */
  lemma CrashBars(m: Mailbox, now: int, opts: Options, id: int)
    requires MailboxInv(m) && OptionsOk(opts) && m.record.Some? && RecordBars(m.record.value, id)
    ensures BarredIn(Happen(m, Crash(now), opts), id)
  {
    CrashMembers(m, now, opts);
    RestoredBars(m.record.value, id);
    hide MailboxInv, Happen, RestoreMembers, EngineOk;
  }

  lemma CrashMembers(m: Mailbox, now: int, opts: Options)
    requires MailboxInv(m) && OptionsOk(opts) && m.record.Some?
    ensures var back, s := Happen(m, Crash(now), opts), m.record.value;
            && back.record == m.record && back.room.phase == s.phase && back.room.matchID == s.matchID
            && back.room.matchSettled == s.matchSettled
            && back.room.members == RestoreMembers(s.members, s.phase) && EngineOk(back.room.engine)
  {
    RestartBegins(m, opts, now);
    RestoredAre(m.room.id, m.record.value, opts, now);
    InvSane(Happen(m, Crash(now), opts));
    hide MailboxInv, RestoreRoom;
  }

  lemma RestoredAre(recordID: string, s: RoomSnapshot, opts: Options, now: int)
    requires RestoreRoom(recordID, s, opts, now).Ok?
    ensures var r := RestoreRoom(recordID, s, opts, now).value;
            && r.phase == s.phase && r.matchID == s.matchID && r.matchSettled == s.matchSettled
            && r.members == RestoreMembers(s.members, s.phase)
  {
    hide ValidRoomSnapshot, Snapshots.Restore, RestoreMembers;
  }

  lemma HappenBars(m: Mailbox, event: Event, opts: Options, id: int)
    requires MailboxInv(m) && OptionsOk(opts) && Possible(m, event, opts) && BarredIn(m, id)
    ensures BarredIn(Happen(m, event, opts), id)
  {
    InvSane(m);
    RecordOfBarred(m, id);
    hide MailboxInv, Sane, BarredIn, RestoreRoom, OptionsOk, InputOk;
    match event
    case Do(step) => DoBars(m, step, opts, id);
    case Crash(at) => CrashBars(m, at, opts, id);
  }

  /** Over every run, with any number of crashes: who is barred, in the room and in the store, stays barred, and is refused
      whenever he tries. */
  lemma {:induction false} BarredForEver(m: Mailbox, events: seq<Event>, opts: Options, s: Session, now: int)
    requires MailboxInv(m) && OptionsOk(opts) && CanLive(m, events, opts) && BarredIn(m, s.playerID)
    ensures var e := Lived(m, events, opts);
            && BarredIn(e, s.playerID) && EngineOk(e.room.engine)
            && TryReconnect(e.room, Some(s), opts, now) == Handled(e.room, Some(NotInRoom))
            && TryJoin(e.room, s) == Handled(e.room, Some(AlreadyPlaying))
    decreases |events|
  {
    hide MailboxInv, OptionsOk, BarredIn, Happen, EngineOk, TryReconnect, TryJoin;
    if events == [] {
      BarredRefusedIn(m, s, opts, now);
    } else {
      HappenBars(m, events[0], opts, s.playerID);
      BarredForEver(Happen(m, events[0], opts), events[1..], opts, s, now);
    }
  }

  lemma BarredRefusedIn(m: Mailbox, s: Session, opts: Options, now: int)
    requires MailboxInv(m) && BarredIn(m, s.playerID)
    ensures EngineOk(m.room.engine)
    ensures TryReconnect(m.room, Some(s), opts, now) == Handled(m.room, Some(NotInRoom))
    ensures TryJoin(m.room, s) == Handled(m.room, Some(AlreadyPlaying))
  {
    InvSane(m);
    hide MailboxInv, QueueInv, EngineOk, RecordBars, TryReconnect, TryJoin;
    BarredIsRefused(m.room, s, opts, now);
  }

  lemma RecordOfBarred(m: Mailbox, id: int)
    requires BarredIn(m, id)
    ensures m.record.Some? ==> RecordBars(m.record.value, id)
  {
  }

  /** Walking out of a round bars at once in the room; in the store too if the room is written then, or if nothing but a
      record that bars him is there. */
  lemma LeavingBars(m: Mailbox, s: Session, opts: Options, input: Input, saved: bool)
    requires MailboxInv(m) && m.loop.Busy? && InputOk(input) && m.room.phase == RoomPlaying
    requires m.accepted[m.taken - 1].command == FromPlayer(s, LeaveMessage) && Bound(m.room, s)
    ensures EngineOk(m.room.engine)
    ensures var c := Carried(m, opts, input, saved);
            && Barred(c.room, s.playerID)
            && ((opts.hasSnapshots && saved) || m.record.None? || RecordBars(m.record.value, s.playerID) ==> BarredIn(c, s.playerID))
  {
    InvSane(m);
    var command := m.accepted[m.taken - 1].command;
    assert !m.room.destroyed;
    LeftBarred(m.room, s, opts, input);
    hide EngineOk, InputOk, RoomInv, Execute, Synced, Counted, TimersOk, RecordOk, AnswersOk, NothingBehindStop, EventsApart,
         RecordBars, Barred, Bound;
    ExecutedRoom(m.room, command, opts, input, 0);
    var r' := Execute(m.room, command, opts, input).room;
    SyncedBars(r', None, opts, input.now, saved, s.playerID);
    SyncedOver(r', m.record, opts, input.now, saved);
    CountedFrame(r', opts);
    BarredFrame(r', r'.(revision := Counted(r', opts).revision), s.playerID);
  }

  lemma SyncedOver(r: RoomState, record: Option<RoomSnapshot>, opts: Options, now: int, saved: bool)
    requires EngineOk(r.engine)
    ensures Synced(r, record, opts, now, saved) == if opts.hasSnapshots && saved then Synced(r, None, opts, now, saved) else record
  {
    hide EngineOk, BuildSnapshot;
  }

  lemma LeftBarred(r: RoomState, s: Session, opts: Options, input: Input)
    requires RoomInv(r) && r.phase == RoomPlaying && InputOk(input) && Bound(r, s)
    ensures EngineOk(r.engine) && Barred(Execute(r, FromPlayer(s, LeaveMessage), opts, input).room, s.playerID)
  {
    EngineFine(r);
    assert DistinctMembers(r.members);
    VacatedBars(r, FindMember(r.members, s.playerID).value, opts, input.now);
    hide EngineOk, Vacate, InputOk, RoomInv, DistinctMembers, Barred, RemoveMember;
  }

  lemma VacatedBars(r: RoomState, i: nat, opts: Options, now: int)
    requires EngineOk(r.engine) && i < |r.members| && DistinctMembers(r.members) && r.phase == RoomPlaying
    ensures Barred(Vacate(r, i, true, opts, now), r.members[i].playerID)
  {
    var m := r.members[i].(session := None, connected := false, autoPlay := true, abandoned := true);
    var watched := ScheduleEmpty(SetMember(r, i, m), opts);
    assert watched.members == r.members[i := m] && watched.phase == r.phase && watched.engine == r.engine;
    ScheduledMembers(watched, opts, now);
    hide EngineOk, Actor, HasConnected, ScheduleTurn, IsActor;
  }

  lemma RestoredSeat(s: RoomSnapshot, id: int)
    requires ValidMembers(s) && s.phase == RoomPlaying
    requires exists i :: 0 <= i < |s.members| && s.members[i].playerID == id
    ensures var back := RestoreMembers(s.members, s.phase);
            var j := FindMember(back, id);
            j.Some? && (back[j.value].abandoned <==> RecordBars(s, id))
  {
    var back := RestoreMembers(s.members, s.phase);
    assert forall i :: 0 <= i < |back| ==> back[i] == RestoreMember(s.members[i], s.phase);
    var i :| 0 <= i < |s.members| && s.members[i].playerID == id;
    assert back[i].playerID == id;
    var j := FindMember(back, id);
    assert j.Some? && s.members[j.value].playerID == id;
    hide SavedMemberOk;
  }

  lemma RecordMembers(m: Mailbox, opts: Options, now: int)
    requires MailboxInv(m) && m.record.Some? && OptionsOk(opts)
    ensures ValidMembers(m.record.value)
    ensures m.record.value.phase == RoomPlaying ==> !m.record.value.matchSettled
  {
    RecordIsGood(m, opts, now);
    hide MailboxInv, ValidMembers, RestoreRoom, Snapshots.ValidSnapshot, RoomInv;
  }

  /** What a crash remembers is the record: after it a player of the recorded round gets his seat back exactly when the
      record does not hold it abandoned. So a leave whose write failed is forgotten. */
  lemma CrashBarsIff(m: Mailbox, now: int, opts: Options, s: Session, later: int)
    requires MailboxInv(m) && OptionsOk(opts) && m.record.Some? && m.record.value.phase == RoomPlaying
    requires exists i :: 0 <= i < |m.record.value.members| && m.record.value.members[i].playerID == s.playerID
    ensures var back := Happen(m, Crash(now), opts).room;
            && EngineOk(back.engine)
            && (TryReconnect(back, Some(s), opts, later).error.Some? <==> RecordBars(m.record.value, s.playerID))
  {
    hide MailboxInv, Happen, EngineOk, OptionsOk, RecordBars, ValidMembers, RestoreMembers, Actor, ScheduleTurn, IsActor;
    RecordMembers(m, opts, now);
    CrashMembers(m, now, opts);
    RestoredSeat(m.record.value, s.playerID);
  }

  // ----- A connection that was replaced stays deaf -----

  /** The player's seat, if any, does not listen to this connection. */
  ghost predicate Deaf(r: RoomState, s: Session) {
    forall i :: 0 <= i < |r.members| && r.members[i].playerID == s.playerID ==> r.members[i].session != Some(s)
  }

  lemma DeafIsIgnored(r: RoomState, s: Session, message: Message, opts: Options, input: Input)
    requires EngineOk(r.engine) && InputOk(input) && Deaf(r, s)
    ensures HandleDisconnect(r, Some(s), opts, input.now) == r
    ensures HandleMessage(r, s, message, opts, input) == Handled(r, Some(NotInRoom))
  {
    hide EngineOk, InputOk, Actor, Vacate, RemoveMember, HandleReady, HandleStart, HandleLeave, HandleKick, HandleMove;
  }

  lemma RemovedDeaf(r: RoomState, playerID: int, opts: Options, s: Session)
    requires Deaf(r, s)
    ensures Deaf(RemoveMember(r, playerID, opts), s)
  {
    var i := FindMember(r.members, playerID);
    if i.Some? {
      var left := RemoveAt(r.members, i.value);
      assert forall j :: 0 <= j < |left| ==> left[j] == r.members[if j < i.value then j else j + 1];
      assert Deaf(r.(members := left), s);
      if left != [] { SeatDeaf(r.(members := left), 0, left[0].(ready := true), s); }
    }
    hide HasConnected, FindMember, RemoveAt, Deaf;
  }

  lemma SeatDeaf(r: RoomState, i: nat, m: Member, s: Session)
    requires Deaf(r, s) && i < |r.members|
    requires m.session == r.members[i].session && m.playerID == r.members[i].playerID
    ensures Deaf(SetMember(r, i, m), s)
  {
  }

  lemma VacatedDeaf(r: RoomState, i: nat, abandoned: bool, opts: Options, now: int, s: Session)
    requires EngineOk(r.engine) && i < |r.members| && Deaf(r, s)
    ensures Deaf(Vacate(r, i, abandoned, opts, now), s)
  {
    var m := r.members[i].(session := None, connected := false, autoPlay := true, abandoned := abandoned);
    var watched := ScheduleEmpty(SetMember(r, i, m), opts);
    assert watched.members == r.members[i := m] && watched.engine == r.engine;
    ScheduledMembers(watched, opts, now);
    hide EngineOk, Actor, HasConnected, ScheduleTurn, IsActor;
  }

  lemma ReconnectDeaf(r: RoomState, who: Option<Session>, opts: Options, now: int, s: Session)
    requires EngineOk(r.engine) && Deaf(r, s) && who != Some(s)
    ensures Deaf(TryReconnect(r, who, opts, now).room, s)
  {
    if who.Some? {
      var i := FindMember(r.members, who.value.playerID);
      if i.Some? {
        var m := r.members[i.value].(session := who, connected := true, autoPlay := false, strikes := 0);
        ScheduledMembers(CancelEmpty(SetMember(r, i.value, m)), opts, now);
      }
    }
    hide EngineOk, Actor, ScheduleTurn, IsActor;
  }

  lemma StartDeaf(r: RoomState, s0: Session, opts: Options, input: Input, s: Session)
    requires InputOk(input) && Deaf(r, s)
    ensures Deaf(HandleStart(r, s0, opts, input).room, s)
  {
    var game := NewGame(MemberIDs(r.members), 0, input.dealing);
    NewGameInv(MemberIDs(r.members), 0, input.dealing);
    var p := PersistStart(r, opts, input).room;
    assert p.members == r.members;
    hide NewGame, InputOk, AllReady, PersistStart, Inv, ScheduleTurn;
    if game.Ok? {
      ScheduledMembers(p.(engine := Some(game.value), phase := RoomPlaying), opts, input.now);
    }
  }

  lemma PlayedOnDeaf(r: RoomState, r': RoomState, s: Session)
    requires PlayedOn(r, r') && Deaf(r, s)
    ensures Deaf(r', s)
  {
  }

  lemma MessageDeaf(r: RoomState, s0: Session, message: Message, opts: Options, input: Input, s: Session)
    requires EngineOk(r.engine) && InputOk(input) && Deaf(r, s)
    ensures Deaf(HandleMessage(r, s0, message, opts, input).room, s)
  {
    hide EngineOk, InputOk, HandleMove, HandleStart, Actor;
    match message
    case StartMessage => StartDeaf(r, s0, opts, input, s); hide HandleLeave, RemoveMember;
    case MoveMessage(move) =>
      MovePlaysOn(r, s0, move, opts, input);
      PlayedOnDeaf(r, HandleMove(r, s0, move, opts, input).room, s);
      hide HandleLeave, RemoveMember;
    case LeaveMessage =>
      RemovedDeaf(r, s0.playerID, opts, s);
      var i := FindMember(r.members, s0.playerID);
      if i.Some? { VacatedDeaf(r, i.value, true, opts, input.now, s); }
      hide Vacate, RemoveMember, Deaf;
    case KickMessage(target) =>
      if target.Some? { RemovedDeaf(r, target.value, opts, s); }
      hide RemoveMember, HandleLeave;
    case _ => hide HandleLeave, RemoveMember;
  }

  /** No command but his own joining or reconnecting makes the room listen to a connection again. */
  lemma DeafStep(r: RoomState, command: RoomCommand, opts: Options, input: Input, s: Session)
    requires EngineOk(r.engine) && InputOk(input) && Deaf(r, s) && command != Join(s) && command != Reconnect(Some(s))
    ensures Deaf(Execute(r, command, opts, input).room, s)
  {
    hide EngineOk, InputOk, HandleMessage, HandleTurnEvent, TryReconnect, HasConnected, Vacate, RemoveMember;
    match command
    case FromPlayer(s0, message) => MessageDeaf(r, s0, message, opts, input, s);
    case Disconnect(who) =>
      if who.Some? {
        RemovedDeaf(r, who.value.playerID, opts, s);
        var i := FindMember(r.members, who.value.playerID);
        if i.Some? { VacatedDeaf(r, i.value, r.members[i.value].abandoned, opts, input.now, s); }
      }
    case Reconnect(who) => ReconnectDeaf(r, who, opts, input.now, s);
    case Timer(TurnEvent(kind, token)) =>
      TurnEventPlaysOn(r, kind, token, opts, input);
      PlayedOnDeaf(r, HandleTurnEvent(r, kind, token, opts, input), s);
    case _ =>
  }

  /** The event carries out the connection's own joining or reconnecting. */
  ghost predicate Rebinds(m: Mailbox, event: Event, s: Session) {
    && event.Do? && event.step.Advance? && m.loop.Busy? && 0 < m.taken <= |m.accepted|
    && (m.accepted[m.taken - 1].command == Join(s) || m.accepted[m.taken - 1].command == Reconnect(Some(s)))
  }

  ghost predicate NeverRebinds(m: Mailbox, events: seq<Event>, opts: Options, s: Session)
    requires MailboxInv(m) && OptionsOk(opts) && CanLive(m, events, opts)
    decreases |events|
  {
    events != [] ==> !Rebinds(m, events[0], s) && NeverRebinds(Happen(m, events[0], opts), events[1..], opts, s)
  }

  lemma DoDeaf(m: Mailbox, step: Step, opts: Options, s: Session)
    requires MailboxInv(m) && Sane(m) && Enabled(m, step) && Deaf(m.room, s) && !Rebinds(m, Do(step), s)
    ensures Deaf(Performed(m, step, opts).room, s)
  {
    hide EngineOk, InputOk, RoomInv, TimersOk, RecordOk, AnswersOk, NothingBehindStop, EventsApart, Execute, Synced;
    if m.loop.Busy? && step.Advance? {
      DeafStep(m.room, m.accepted[m.taken - 1].command, opts, step.input, s);
    }
  }

  lemma HappenDeaf(m: Mailbox, event: Event, opts: Options, s: Session)
    requires MailboxInv(m) && OptionsOk(opts) && Possible(m, event, opts) && Deaf(m.room, s) && !Rebinds(m, event, s)
    ensures Deaf(Happen(m, event, opts).room, s)
  {
    InvSane(m);
    hide MailboxInv, Sane, RestoreRoom, OptionsOk, InputOk, Rebinds;
    match event
    case Do(step) => DoDeaf(m, step, opts, s);
    case Crash(at) => CrashMembers(m, at, opts);
  }

  /** Over every run, crashes included: a connection that a seat has stopped listening to stays deaf until it rebinds. Its
      disconnect changes nothing, its messages are refused. */
  lemma {:induction false} DeafForEver(m: Mailbox, events: seq<Event>, opts: Options, s: Session, message: Message, input: Input)
    requires MailboxInv(m) && OptionsOk(opts) && CanLive(m, events, opts) && NeverRebinds(m, events, opts, s)
    requires Deaf(m.room, s) && InputOk(input)
    ensures var e := Lived(m, events, opts);
            && Deaf(e.room, s) && EngineOk(e.room.engine)
            && HandleDisconnect(e.room, Some(s), opts, input.now) == e.room
            && HandleMessage(e.room, s, message, opts, input) == Handled(e.room, Some(NotInRoom))
    decreases |events|
  {
    hide MailboxInv, OptionsOk, Deaf, Happen, EngineOk, HandleDisconnect, HandleMessage, Rebinds, InputOk;
    if events == [] {
      InvSane(m);
      SaneEngine(m);
      DeafIsIgnored(m.room, s, message, opts, input);
    } else {
      HappenDeaf(m, events[0], opts, s);
      DeafForEver(Happen(m, events[0], opts), events[1..], opts, s, message, input);
    }
  }

  lemma SaneEngine(m: Mailbox)
    requires Sane(m)
    ensures EngineOk(m.room.engine)
  {
    hide QueueInv, EngineOk;
  }

  /** A reconnect makes the seat deaf to every other connection. */
  lemma ReplacedIsDeaf(r: RoomState, previous: Session, current: Session, opts: Options, now: int)
    requires RoomInv(r) && previous.playerID == current.playerID && previous != current
    ensures EngineOk(r.engine)
    ensures TryReconnect(r, Some(current), opts, now).error.None? ==> Deaf(TryReconnect(r, Some(current), opts, now).room, previous)
  {
    EngineFine(r);
    var i := FindMember(r.members, current.playerID);
    if i.Some? {
      var m := r.members[i.value].(session := Some(current), connected := true, autoPlay := false, strikes := 0);
      ScheduledMembers(CancelEmpty(SetMember(r, i.value, m)), opts, now);
      assert DistinctMembers(r.members);
    }
    hide EngineOk, Actor, ScheduleTurn, IsActor, RoomInv;
  }

  // ----- A settlement is written once -----

  /** Once settled, always settled; and what is written is written on settling. */
  ghost predicate SettlesOnce(r: RoomState, r': RoomState) {
    && (r.phase == RoomSettled ==> r'.phase == RoomSettled && r'.matchSettled == r.matchSettled)
    && (r'.matchSettled && !r.matchSettled ==> r'.phase == RoomSettled)
  }

  lemma RemovedSettles(r: RoomState, playerID: int, opts: Options)
    ensures SettlesOnce(r, RemoveMember(r, playerID, opts))
  {
    hide HasConnected, FindMember, RemoveAt;
  }

  lemma VacatedSettles(r: RoomState, i: nat, abandoned: bool, opts: Options, now: int)
    requires EngineOk(r.engine) && i < |r.members|
    ensures SettlesOnce(r, Vacate(r, i, abandoned, opts, now))
  {
    var m := r.members[i].(session := None, connected := false, autoPlay := true, abandoned := abandoned);
    var watched := ScheduleEmpty(SetMember(r, i, m), opts);
    assert watched.phase == r.phase && watched.engine == r.engine && watched.matchSettled == r.matchSettled;
    ScheduledMembers(watched, opts, now);
    hide EngineOk, Actor, HasConnected, ScheduleTurn, IsActor;
  }

  lemma ReconnectSettles(r: RoomState, who: Option<Session>, opts: Options, now: int)
    requires EngineOk(r.engine)
    ensures SettlesOnce(r, TryReconnect(r, who, opts, now).room)
  {
    if who.Some? {
      var i := FindMember(r.members, who.value.playerID);
      if i.Some? {
        var m := r.members[i.value].(session := who, connected := true, autoPlay := false, strikes := 0);
        ScheduledMembers(CancelEmpty(SetMember(r, i.value, m)), opts, now);
      }
    }
    hide EngineOk, Actor, ScheduleTurn, IsActor;
  }

  lemma StartSettles(r: RoomState, s: Session, opts: Options, input: Input)
    requires InputOk(input)
    ensures SettlesOnce(r, HandleStart(r, s, opts, input).room)
  {
    var game := NewGame(MemberIDs(r.members), 0, input.dealing);
    NewGameInv(MemberIDs(r.members), 0, input.dealing);
    var p := PersistStart(r, opts, input).room;
    assert p.phase == r.phase && !p.matchSettled;
    hide NewGame, InputOk, AllReady, PersistStart, Inv, ScheduleTurn;
    if game.Ok? {
      ScheduledMembers(p.(engine := Some(game.value), phase := RoomPlaying), opts, input.now);
    }
  }

  lemma MessageSettles(r: RoomState, s: Session, message: Message, opts: Options, input: Input)
    requires EngineOk(r.engine) && InputOk(input)
    ensures SettlesOnce(r, HandleMessage(r, s, message, opts, input).room)
  {
    hide EngineOk, InputOk, HandleMove, HandleStart, Vacate, RemoveMember, Actor;
    match message
    case StartMessage => StartSettles(r, s, opts, input); hide HandleLeave;
    case MoveMessage(move) => MovePlaysOn(r, s, move, opts, input); hide HandleLeave;
    case LeaveMessage =>
      RemovedSettles(r, s.playerID, opts);
      var i := FindMember(r.members, s.playerID);
      if i.Some? { VacatedSettles(r, i.value, true, opts, input.now); }
    case KickMessage(target) =>
      if target.Some? { RemovedSettles(r, target.value, opts); }
      hide HandleLeave;
    case _ => hide HandleLeave;
  }

  lemma SettlesStep(r: RoomState, command: RoomCommand, opts: Options, input: Input)
    requires EngineOk(r.engine) && InputOk(input)
    ensures SettlesOnce(r, Execute(r, command, opts, input).room)
  {
    hide EngineOk, InputOk, HandleMessage, HandleTurnEvent, TryReconnect, HasConnected, Vacate, RemoveMember;
    match command
    case FromPlayer(s, message) => MessageSettles(r, s, message, opts, input);
    case Disconnect(who) =>
      if who.Some? {
        RemovedSettles(r, who.value.playerID, opts);
        var i := FindMember(r.members, who.value.playerID);
        if i.Some? { VacatedSettles(r, i.value, r.members[i.value].abandoned, opts, input.now); }
      }
    case Reconnect(who) => ReconnectSettles(r, who, opts, input.now);
    case Timer(TurnEvent(kind, token)) => TurnEventPlaysOn(r, kind, token, opts, input);
    case _ =>
  }

  lemma PerformedSettles(m: Mailbox, step: Step, opts: Options)
    requires Sane(m) && Enabled(m, step)
    ensures SettlesOnce(m.room, Performed(m, step, opts).room)
  {
    hide EngineOk, InputOk, AnswersOk, NothingBehindStop, Execute, Synced;
    if m.loop.Busy? && step.Advance? {
      SettlesStep(m.room, m.accepted[m.taken - 1].command, opts, step.input);
    }
  }

  /** How many of the steps write a settlement. */
  ghost function Writes(m: Mailbox, steps: seq<Step>, opts: Options): nat
    requires Sane(m) && CanRun(m, steps, opts)
    decreases |steps|
  {
    if steps == [] then 0
    else
      var next := Performed(m, steps[0], opts);
      (if next.room.matchSettled && !m.room.matchSettled then 1 else 0) + Writes(next, steps[1..], opts)
  }

  /** In one life of a room at most one settlement is written. */
  lemma {:induction false} WrittenOnce(m: Mailbox, steps: seq<Step>, opts: Options)
    requires Sane(m) && CanRun(m, steps, opts)
    ensures Writes(m, steps, opts) <= 1
    ensures m.room.phase == RoomSettled ==> Writes(m, steps, opts) == 0
    decreases |steps|
  {
    hide Sane, Performed;
    if steps != [] {
      PerformedSettles(m, steps[0], opts);
      WrittenOnce(Performed(m, steps[0], opts), steps[1..], opts);
    }
  }

  /** A finished round with a match is written exactly when its ids are issued, positive and distinct, and the transaction
      succeeds; the rows themselves are never refused. */
  lemma WrittenIff(r: RoomState, opts: Options, input: Input)
    requires r.engine.Some? && EngineOk(r.engine) && r.engine.value.phase == Finished
    requires opts.hasMatches && r.matchID > 0 && !r.matchSettled
    ensures var n := |r.engine.value.players|;
            PersistSettlement(r, opts, input).room.matchSettled
            <==> AllIssued(input.ids, n) && Usable(IssuedIDs(input.ids, n)) && input.stored
  {
    var g := r.engine.value;
    RoundFacts(g, false);
    hide Inv, EngineOk, ValidSettlement, Rows, FinishedMatch, Usable, ResultFor, AllIssued, IssuedIDs;
    assert g.result.Some? && |g.result.value.players| == |g.players| by { ResultSeats(g); }
    if AllIssued(input.ids, |g.players|) {
      SettlementAccepted(g, r.matchID, r.id, r.matchStartedAt, input.now, IssuedIDs(input.ids, |g.players|), false);
    }
  }

  lemma ResultSeats(g: Game)
    requires Inv(g, false) && g.phase == Finished
    ensures g.result.Some? && |g.result.value.players| == |g.players|
  {
  }

  lemma SettledRecord(m: Mailbox, opts: Options, input: Input, saved: bool)
    requires Sane(m) && RoomInv(m.room) && m.loop.Busy? && InputOk(input)
    requires !m.room.matchSettled && Carried(m, opts, input, saved).room.matchSettled
    ensures var c := Carried(m, opts, input, saved);
            c.record.Some? <==> m.record.Some? && !(opts.hasSnapshots && saved)
  {
    hide EngineOk, InputOk, AnswersOk, NothingBehindStop, Execute, RoomInv, BuildSnapshot;
    var command := m.accepted[m.taken - 1].command;
    SettlesStep(m.room, command, opts, input);
    if command.Stop? { StopSettlesNothing(m.room, opts, input); }
  }

  lemma StopSettlesNothing(r: RoomState, opts: Options, input: Input)
    requires EngineOk(r.engine) && InputOk(input)
    ensures Execute(r, Stop, opts, input).room.matchSettled == r.matchSettled
  {
    hide EngineOk, InputOk;
  }

  /** Across a crash it can be written again: exactly when the record of the room could not be deleted on settling, the
      room comes back, and if the record is one of the round it comes back unsettled, with the match it holds. (The match
      store refuses to settle a match a second time.) */
  lemma CrashAfterSettling(m: Mailbox, opts: Options, input: Input, saved: bool, now: int)
    requires MailboxInv(m) && m.loop.Busy? && InputOk(input) && OptionsOk(opts) && EngineOk(m.room.engine)
    requires !m.room.matchSettled && Carried(m, opts, input, saved).room.matchSettled
    ensures var c := Carried(m, opts, input, saved);
            && MailboxInv(c)
            && (c.record.Some? <==> m.record.Some? && !(opts.hasSnapshots && saved))
            && (c.record.Some? && c.record.value.phase == RoomPlaying ==>
                  var back := Happen(c, Crash(now), opts).room;
                  back.phase == RoomPlaying && !back.matchSettled && back.matchID == c.record.value.matchID)
  {
    InvSane(m);
    assert RoomInv(m.room);
    hide EngineOk, InputOk, RoomInv, Carried, OptionsOk, AnswersOk, NothingBehindStop, TimersOk, RecordOk, EventsApart;
    PerformKeeps(m, Advance(input, saved), opts);
    SettledRecord(m, opts, input, saved);
    var c := Carried(m, opts, input, saved);
    hide MailboxInv, Happen;
    if c.record.Some? {
      CrashMembers(c, now, opts);
      RecordMembers(c, opts, now);
    }
  }

  // ----- Whenever a round ends its settlement is written -----

  /** The round is over, and its settlement is written exactly if there is a match, all ids are issued and usable, and the
      transaction succeeds. */
  ghost predicate SettledWith(r: RoomState, r': RoomState, opts: Options, input: Input) {
    && r'.engine.Some? && r'.engine.value.phase == Finished
    && var n := |r'.engine.value.players|;
       r'.matchSettled <==> opts.hasMatches && r.matchID > 0
                            && AllIssued(input.ids, n) && Usable(IssuedIDs(input.ids, n)) && input.stored
  }

  lemma OverIsSettled(r: RoomState, over: RoomState, opts: Options, input: Input)
    requires over.engine.Some? && EngineOk(over.engine) && over.engine.value.phase == Finished
    requires !over.matchSettled && over.matchID == r.matchID >= 0
    ensures var p := PersistSettlement(CancelTurn(over.(phase := RoomSettled)), opts, input).room;
            p.engine == over.engine && SettledWith(r, p, opts, input)
  {
    var c := CancelTurn(over.(phase := RoomSettled));
    assert c.engine == over.engine && c.matchID == over.matchID && !c.matchSettled;
    hide EngineOk, CancelTurn, AllIssued, IssuedIDs, Usable, SettlementWritten;
    if opts.hasMatches && r.matchID > 0 { WrittenIff(c, opts, input); }
  }

  lemma MoveSettles(r: RoomState, s: Session, move: Move, opts: Options, input: Input)
    requires EngineOk(r.engine) && InputOk(input) && r.phase == RoomPlaying && !r.matchSettled && r.matchID >= 0
    ensures var r' := HandleMove(r, s, move, opts, input).room; r'.phase == RoomSettled ==> SettledWith(r, r', opts, input)
  {
    hide EngineOk, InputOk, CommandOutcome, CommandOf, Inv, FindMember, SettledWith, Followed;
    var command := CommandOf(s.playerID, move);
    if r.engine.Some? && command.Some? {
      EngineIs(r.engine);
      var o := CommandOutcome(r.engine.value, command.value, input);
      EngineIsBack(o.game);
      var moved := r.(engine := Some(o.game));
      FollowedSettles(r, moved, IsTurnAction(move), opts, input);
      FollowedSettles(r, Cleared(moved, s.playerID), IsTurnAction(move), opts, input);
    }
  }

  lemma FollowedSettles(r0: RoomState, r: RoomState, turnAction: bool, opts: Options, input: Input)
    requires EngineOk(r.engine) && r.engine.Some? && r.phase == RoomPlaying && !r.matchSettled && r.matchID == r0.matchID >= 0
    ensures var r' := Followed(r, turnAction, opts, input).room; r'.phase == RoomSettled ==> SettledWith(r0, r', opts, input)
  {
    ScheduledMembers(r, opts, input.now);
    hide EngineOk, ScheduleTurn, PersistSettlement, CancelTurn, SettledWith;
    if r.engine.value.phase == Finished { OverIsSettled(r0, r, opts, input); }
  }

  lemma TurnEventSettles(r: RoomState, kind: TurnKind, token: nat, opts: Options, input: Input)
    requires EngineOk(r.engine) && InputOk(input) && r.phase == RoomPlaying && !r.matchSettled && r.matchID >= 0
    ensures var r' := HandleTurnEvent(r, kind, token, opts, input); r'.phase == RoomSettled ==> SettledWith(r, r', opts, input)
  {
    hide Inv, AutoOutcome, InputOk, Actor, EngineOk, FinishAutomated, ScheduleTurn, SettledWith;
    if token == r.turnToken && r.engine.Some? && Actor(r.members, r.engine).Some? {
      var i := Actor(r.members, r.engine).value;
      EngineIs(r.engine);
      var o := AutoOutcome(r.engine.value, r.members[i].playerID, input);
      EngineIsBack(o.game);
      var acted := SetMember(r.(engine := Some(o.game)), i, Struck(r.members[i], kind, opts));
      ScheduledMembers(acted, opts, input.now);
      AutomatedSettles(r, acted, opts, input);
    }
  }

  lemma AutomatedSettles(r0: RoomState, r: RoomState, opts: Options, input: Input)
    requires EngineOk(r.engine) && r.engine.Some? && r.phase == RoomPlaying && !r.matchSettled && r.matchID == r0.matchID >= 0
    ensures var r' := FinishAutomated(r, opts, input); r'.phase == RoomSettled ==> SettledWith(r0, r', opts, input)
  {
    ScheduledMembers(r, opts, input.now);
    hide EngineOk, ScheduleTurn, PersistSettlement, CancelTurn, SettledWith, SeatOf;
    if r.engine.value.phase == Finished { OverIsSettled(r0, r, opts, input); }
  }

  lemma RoundStays(r: RoomState, s: Session, message: Message, opts: Options, input: Input)
    requires EngineOk(r.engine) && InputOk(input) && r.phase == RoomPlaying && !message.MoveMessage?
    ensures HandleMessage(r, s, message, opts, input).room.phase == RoomPlaying
  {
    hide EngineOk, InputOk, HandleMove, Vacate, RemoveMember, Actor, PersistStart, Setup.NewGame;
    if message.LeaveMessage? {
      var i := FindMember(r.members, s.playerID);
      if i.Some? { VacatedPhase(r, i.value, true, opts, input.now); }
    }
  }

  lemma VacatedPhase(r: RoomState, i: nat, abandoned: bool, opts: Options, now: int)
    requires EngineOk(r.engine) && i < |r.members|
    ensures Vacate(r, i, abandoned, opts, now).phase == r.phase
  {
    var m := r.members[i].(session := None, connected := false, autoPlay := true, abandoned := abandoned);
    var watched := ScheduleEmpty(SetMember(r, i, m), opts);
    assert watched.phase == r.phase && watched.engine == r.engine;
    ScheduledMembers(watched, opts, now);
    hide EngineOk, Actor, HasConnected, ScheduleTurn, IsActor;
  }

  /** Whatever command ends a round - a player's move or the server's - its settlement is written then and there, whenever
      that is possible at all. */
  lemma RoundEndIsSettled(r: RoomState, command: RoomCommand, opts: Options, input: Input)
    requires RoomInv(r) && EngineOk(r.engine) && InputOk(input) && r.phase == RoomPlaying
    ensures var r' := Execute(r, command, opts, input).room;
            r'.phase == RoomSettled ==> SettledWith(r, r', opts, input)
  {
    assert !r.matchSettled && r.matchID >= 0;
    hide EngineOk, InputOk, RoomInv, HandleMove, HandleMessage, HandleTurnEvent, TryReconnect, HasConnected, Vacate, RemoveMember, SettledWith;
    match command
    case FromPlayer(s, message) =>
      if message.MoveMessage? { BoundMove(r, s, message.move, opts, input); } else { RoundStays(r, s, message, opts, input); }
    case Disconnect(who) =>
      if who.Some? {
        var i := FindMember(r.members, who.value.playerID);
        if i.Some? { VacatedPhase(r, i.value, r.members[i.value].abandoned, opts, input.now); }
      }
    case Reconnect(who) => BackPhase(r, who, opts, input.now);
    case Timer(TurnEvent(kind, token)) => TurnEventSettles(r, kind, token, opts, input);
    case _ =>
  }

  lemma BackPhase(r: RoomState, who: Option<Session>, opts: Options, now: int)
    requires EngineOk(r.engine)
    ensures TryReconnect(r, who, opts, now).room.phase == r.phase
  {
    if who.Some? {
      var i := FindMember(r.members, who.value.playerID);
      if i.Some? {
        var m := r.members[i.value].(session := who, connected := true, autoPlay := false, strikes := 0);
        ScheduledMembers(CancelEmpty(SetMember(r, i.value, m)), opts, now);
      }
    }
    hide EngineOk, Actor, ScheduleTurn, IsActor;
  }

  lemma BoundMove(r: RoomState, s: Session, move: Move, opts: Options, input: Input)
    requires EngineOk(r.engine) && InputOk(input) && r.phase == RoomPlaying && !r.matchSettled && r.matchID >= 0
    ensures var r' := HandleMessage(r, s, MoveMessage(move), opts, input).room;
            r'.phase == RoomSettled ==> SettledWith(r, r', opts, input)
  {
    MoveSettles(r, s, move, opts, input);
    hide EngineOk, InputOk, HandleMove, SettledWith;
  }
}
