/** Runs of a room behind its mailbox: what holds at every moment, however submitters, timers and the loop interleave. */
module MailboxRuns {
  import opened Wrappers
  import opened Rules
  import opened Rooms
  import opened RoomInvariant
  import opened RoomSnapshots
  import opened RoomTimers
  import opened RoomCollection
  import opened RoomIdentity
  import opened Mailboxes

  // ----- Events on their way -----

  function TimersIn(jobs: seq<Job>): set<TimerEvent> {
    set j | j in jobs && j.command.Timer? :: j.command.event
  }

  /** The jobs not yet carried out or turned away. */
  function Pending(m: Mailbox): seq<Job>
    requires CountsOk(m)
  {
    m.accepted[if m.loop.Busy? then m.taken - 1 else m.taken..]
  }

  /** Every timer event that is armed, in the mailbox, in the loop's hands, was dropped or came too late. */
  ghost function OnTheWay(m: Mailbox): set<TimerEvent>
    requires CountsOk(m)
  {
    m.room.armed + m.dropped + m.late + TimersIn(Pending(m))
  }

  ghost predicate TimersOk(m: Mailbox)
    requires CountsOk(m)
  {
    && EngineOk(m.room.engine)
    && (!m.stopped ==> TurnInv(m.room, OnTheWay(m)) && EmptyInv(m.room, OnTheWay(m), m.watched))
  }

  /** What the store holds was written for this room in good order. */
  ghost predicate RecordOk(id: string, record: Option<RoomSnapshot>) {
    record.Some? ==> exists r: RoomState, at: int :: WrittenAs(r, at, id, record.value)
  }

  ghost predicate WrittenAs(r: RoomState, at: int, id: string, s: RoomSnapshot) {
    RoomInv(r) && !r.destroyed && r.phase != RoomSettled && at != ZERO_TIME && r.id == id && s == BuildSnapshot(r, at)
  }

  ghost predicate InOrder(m: Mailbox) {
    && QueueInv(m)
    && RoomInv(m.room)
    && TimersOk(m)
    && RecordOk(m.room.id, m.record)
    && (forall i :: 0 <= i < |m.accepted| ==> CommandOk(m.accepted[i].command))
  }

  // ----- Steps -----

  /** Clients submit anything but timer events; timers fire once; the loop moves when it can. */
  ghost predicate Enabled(m: Mailbox, step: Step)
    requires m.taken <= |m.accepted|
  {
    match step
    case Submit(job) => !job.command.Timer? && CommandOk(job.command)
    case Fire(event) => event in m.room.armed
    case Advance(input, _) => CanAdvance(m) && InputOk(input)
  }

  ghost function Perform(m: Mailbox, step: Step, opts: Options): Mailbox
    requires CountsOk(m) && EngineOk(m.room.engine) && Enabled(m, step)
  {
    match step
    case Submit(job) => Submitted(m, job)
    case Fire(event) => Fired(m, event)
    case Advance(input, saved) => Advanced(m, opts, input, saved)
  }

  lemma TimersAppend(jobs: seq<Job>, job: Job)
    ensures TimersIn(jobs + [job]) == TimersIn(jobs) + if job.command.Timer? then {job.command.event} else {}
  {
  }

  lemma TimersTail(jobs: seq<Job>)
    requires jobs != []
    ensures TimersIn(jobs) == (if jobs[0].command.Timer? then {jobs[0].command.event} else {}) + TimersIn(jobs[1..])
  {
    assert jobs == [jobs[0]] + jobs[1..];
  }

  /** The timers look at neither the mailbox flag, the revision nor the armed set. */
  lemma TimersFrame(r: RoomState, r': RoomState, events: set<TimerEvent>, watched: bool)
    requires EngineOk(r.engine) && TurnInv(r, events) && EmptyInv(r, events, watched)
    requires r' == r.(closing := r'.closing, revision := r'.revision, armed := r'.armed)
    ensures TurnInv(r', events) && EmptyInv(r', events, watched)
  {
    hide EngineOk, Actor, HasConnected;
  }

  lemma RoomFrame(r: RoomState, r': RoomState)
    requires RoomInv(r) && r' == r.(closing := r'.closing, revision := r'.revision, armed := r'.armed)
    ensures RoomInv(r')
  {
    SameRoomInv(r, r');
  }

  lemma PutEvents(m: Mailbox, job: Job)
    requires CountsOk(m) && CountsOk(Put(m, job))
    requires job.command.Timer? ==> job.command.event in OnTheWay(m)
    ensures OnTheWay(Put(m, job)) == OnTheWay(m)
  {
    hide TimersIn;
    assert Pending(Put(m, job)) == Pending(m) + [job];
    TimersAppend(Pending(m), job);
  }

  lemma PutKeeps(m: Mailbox, job: Job)
    requires InOrder(m) && Accepts(m) && CommandOk(job.command)
    requires job.command.Timer? ==> job.command.event in OnTheWay(m)
    ensures InOrder(Put(m, job))
  {
    hide AnswersOk, NothingBehindStop, LoopOk, RoomInv, TurnInv, EmptyInv, EngineOk, RecordOk, OnTheWay;
    PutQueue(m, job);
    PutEvents(m, job);
    var p := Put(m, job);
    RoomFrame(m.room, p.room);
    if !m.stopped {
      TimersFrame(m.room, p.room, OnTheWay(m), m.watched);
    }
  }

  lemma FiredPending(m: Mailbox, event: TimerEvent)
    requires CountsOk(m) && CountsOk(Fired(m, event))
    ensures var f := Fired(m, event);
            if Accepts(m.(room := m.room.(armed := m.room.armed - {event}))) then
              Pending(f) == Pending(m) + [Job(Timer(event), false)] && f.dropped == m.dropped && f.late == m.late
            else
              && Pending(f) == Pending(m)
              && if m.room.closing || m.loop.Exited? then f.dropped == m.dropped && f.late == m.late + {event}
                 else f.dropped == m.dropped + {event} && f.late == m.late
  {
  }

  /** A timer that fires moves its event on; it is not lost. */
  lemma FiredEvents(m: Mailbox, event: TimerEvent)
    requires CountsOk(m) && CountsOk(Fired(m, event)) && event in m.room.armed
    ensures OnTheWay(Fired(m, event)) == OnTheWay(m)
  {
    FiredPending(m, event);
    TimersAppend(Pending(m), Job(Timer(event), false));
    assert Fired(m, event).room.armed == m.room.armed - {event};
    MovedOn(m.room.armed, m.dropped, m.late, TimersIn(Pending(m)), event);
    hide TimersIn, Fired, Pending, CountsOk, Accepts;
  }

  lemma MovedOn(armed: set<TimerEvent>, dropped: set<TimerEvent>, late: set<TimerEvent>, queued: set<TimerEvent>,
                e: TimerEvent)
    requires e in armed
    ensures (armed - {e}) + dropped + late + (queued + {e}) == armed + dropped + late + queued
    ensures (armed - {e}) + (dropped + {e}) + late + queued == armed + dropped + late + queued
    ensures (armed - {e}) + dropped + (late + {e}) + queued == armed + dropped + late + queued
  {
  }

  lemma FiredCommands(m: Mailbox, event: TimerEvent)
    requires m.taken <= |m.accepted| && forall i :: 0 <= i < |m.accepted| ==> CommandOk(m.accepted[i].command)
    ensures var f := Fired(m, event);
            && (forall i :: 0 <= i < |f.accepted| ==> CommandOk(f.accepted[i].command))
            && f.room == m.room.(armed := m.room.armed - {event})
            && f.stopped == m.stopped && f.watched == m.watched && f.record == m.record
  {
  }

  lemma FiredKeeps(m: Mailbox, event: TimerEvent)
    requires InOrder(m) && event in m.room.armed
    ensures InOrder(Fired(m, event))
  {
    hide AnswersOk, NothingBehindStop, LoopOk, RoomInv, TurnInv, EmptyInv, EngineOk, RecordOk, OnTheWay, Fired;
    FiredQueue(m, event);
    FiredEvents(m, event);
    FiredCommands(m, event);
    var f := Fired(m, event);
    RoomFrame(m.room, f.room);
    if !m.stopped {
      TimersFrame(m.room, f.room, OnTheWay(m), m.watched);
    }
  }

  lemma TakenKeeps(m: Mailbox)
    requires InOrder(m) && m.loop.Idle? && Queue(m) != []
    ensures InOrder(m.(taken := m.taken + 1, loop := Busy))
  {
    TakenQueue(m);
    var t := m.(taken := m.taken + 1, loop := Busy);
    assert Pending(t) == Pending(m);
    hide QueueInv, RoomInv, TurnInv, EmptyInv, EngineOk, RecordOk;
  }

  lemma RepliedKeeps(m: Mailbox)
    requires InOrder(m) && m.loop.Answering?
    ensures InOrder(Replied(m))
  {
    RepliedQueue(m);
    assert Pending(Replied(m)) == Pending(m);
    hide QueueInv, RoomInv, TurnInv, EmptyInv, EngineOk, RecordOk;
  }

  /** In a destroyed room no event matters any more. */
  lemma DestroyedForgets(r: RoomState, before: set<TimerEvent>, after: set<TimerEvent>, watched: bool)
    requires EngineOk(r.engine) && r.destroyed && TurnInv(r, before) && EmptyInv(r, before, watched) && after <= before
    ensures TurnInv(r, after) && EmptyInv(r, after, watched)
  {
    hide EngineOk, Actor, HasConnected;
  }

  lemma DrainedKeeps(m: Mailbox)
    requires InOrder(m) && m.loop.Draining?
    ensures InOrder(Drained(m))
  {
    DrainedQueue(m);
    var d := Drained(m);
    if Queue(m) != [] {
      assert Pending(d) == Pending(m)[1..];
      TimersTail(Pending(m));
    } else {
      assert Pending(d) == Pending(m);
    }
    assert OnTheWay(d) <= OnTheWay(m);
    if !m.stopped {
      DestroyedForgets(m.room, OnTheWay(m), OnTheWay(d), m.watched);
    }
    hide RoomInv, TurnInv, EmptyInv, EngineOk, RecordOk, OnTheWay, AnswersOk;
  }

  // ----- Carrying a job out -----

  lemma BuiltRecord(r: RoomState, record: Option<RoomSnapshot>, opts: Options, now: int, saved: bool)
    requires RoomInv(r) && RecordOk(r.id, record) && now != ZERO_TIME && EngineOk(r.engine)
    ensures RecordOk(r.id, Synced(r, record, opts, now, saved))
  {
    hide RoomInv, EngineOk;
    if opts.hasSnapshots && saved && !r.destroyed && r.phase != RoomSettled {
      assert WrittenAs(r, now, r.id, BuildSnapshot(r, now));
    }
  }

  /** What remains on its way after a job: everything but the event just handled, and what the job armed. */
  lemma CarriedEvents(m: Mailbox, opts: Options, input: Input, saved: bool)
    requires QueueInv(m) && m.loop.Busy? && EngineOk(m.room.engine) && InputOk(input)
    requires CountsOk(Carried(m, opts, input, saved))
    ensures var command := m.accepted[m.taken - 1].command;
            var r' := Execute(m.room, command, opts, input).room;
            var c := Carried(m, opts, input, saved);
            && OnTheWay(c) == r'.armed + m.dropped + m.late + TimersIn(Pending(c))
            && OnTheWay(m) == m.room.armed + m.dropped + m.late + TimersIn(Pending(c))
                              + if command.Timer? then {command.event} else {}
  {
    var c := Carried(m, opts, input, saved);
    hide EngineOk, InputOk, Execute, Synced;
    assert Pending(m)[1..] == Pending(c);
    TimersTail(Pending(m));
    hide TimersIn;
  }

  lemma TurnAfter(r: RoomState, command: RoomCommand, opts: Options, input: Input, before: set<TimerEvent>,
                  after: set<TimerEvent>)
    requires RoomInv(r) && CommandOk(command) && InputOk(input) && OptionsOk(opts) && !r.destroyed && command != Stop
    requires EngineOk(r.engine) && TurnInv(r, before) && r.armed <= before
    requires Execute(r, command, opts, input).room.armed <= after <= before + Execute(r, command, opts, input).room.armed
    requires before - (if command.Timer? then {command.event} else {}) <= after
    ensures TurnInv(Execute(r, command, opts, input).room, after)
  {
    ExecuteTurn(r, command, opts, input);
    var r' := Execute(r, command, opts, input).room;
    hide RoomInv, EngineOk, InputOk, OptionsOk, Execute, Expected;
    assert TurnKept(r, r') && Live(r) ==> Expected(r) in after;
    TurnStepKeeps(r, r', before, after);
  }

  lemma EmptyAfter(r: RoomState, command: RoomCommand, opts: Options, input: Input, before: set<TimerEvent>,
                   after: set<TimerEvent>, watched: bool)
    requires InputOk(input) && OptionsOk(opts) && !r.destroyed && command != Stop
    requires EngineOk(r.engine) && EmptyInv(r, before, watched) && r.armed <= before
    requires Execute(r, command, opts, input).room.armed <= after <= before + Execute(r, command, opts, input).room.armed
    requires before - (if command.Timer? then {command.event} else {}) <= after
    ensures EmptyInv(Execute(r, command, opts, input).room, after, watched || command.TakeRoomSnapshot?)
  {
    ExecuteEmpty(r, command, opts, input);
    var r' := Execute(r, command, opts, input).room;
    hide EngineOk, InputOk, EmptyScheduled, EmptyCancelled, HasConnected;
    if command == Timer(EmptyEvent(r.emptyToken)) && r.emptyTimer.Some? {
      CurrentCollects(r, r.emptyToken);
    }
    if command.TakeRoomSnapshot? {
      SnapshotWatches(r, opts);
    }
    hide Execute, ScheduleEmpty, HandleEmptyEvent, EmptyStep;
    EmptyStepKeeps(r, r', before, after, watched);
  }

  /** A current collection event destroys the room. */
  lemma CurrentCollects(r: RoomState, token: nat)
    requires token == r.emptyToken && !r.destroyed && !HasConnected(r.members)
    ensures HandleEmptyEvent(r, token).destroyed
  {
  }

  lemma CountedFrame(r: RoomState, opts: Options)
    ensures Counted(r, opts) == r.(revision := Counted(r, opts).revision)
  {
  }

  lemma CarriedTimers(m: Mailbox, opts: Options, input: Input, saved: bool)
    requires InOrder(m) && m.loop.Busy? && InputOk(input) && OptionsOk(opts)
    requires CountsOk(Carried(m, opts, input, saved))
    ensures TimersOk(Carried(m, opts, input, saved))
  {
    var command := m.accepted[m.taken - 1].command;
    var c := Carried(m, opts, input, saved);
    var r' := Execute(m.room, command, opts, input).room;
    hide Synced, RoomInv, AnswersOk, NothingBehindStop, RecordOk, EngineOk, InputOk, OptionsOk, TurnInv, EmptyInv, Execute,
         OnTheWay, Counted;
    if !command.Stop? {
      CarriedEvents(m, opts, input, saved);
      ExecuteIdentity(m.room, command, opts, input);
      EngineFine(m.room);
      TurnAfter(m.room, command, opts, input, OnTheWay(m), OnTheWay(c));
      EmptyAfter(m.room, command, opts, input, OnTheWay(m), OnTheWay(c), m.watched);
      CountedFrame(r', opts);
      TimersFrame(r', c.room, OnTheWay(c), c.watched);
    }
  }

  lemma ExecutedRoom(r: RoomState, command: RoomCommand, opts: Options, input: Input, revision: nat)
    requires RoomInv(r) && CommandOk(command) && InputOk(input) && !r.destroyed
    ensures EngineOk(r.engine)
    ensures var r' := Execute(r, command, opts, input).room;
            RoomInv(r') && RoomInv(r'.(revision := revision)) && r'.id == r.id
  {
    hide RoomInv, EngineOk, Execute, InputOk;
    EngineFine(r);
    ExecuteInv(r, command, opts, input);
    ExecuteIdentity(r, command, opts, input);
    var r' := Execute(r, command, opts, input).room;
    RoomFrame(r', r'.(revision := revision));
  }

  lemma CarriedRoom(m: Mailbox, opts: Options, input: Input, saved: bool)
    requires QueueInv(m) && RoomInv(m.room) && RecordOk(m.room.id, m.record) && m.loop.Busy? && InputOk(input)
    requires CommandOk(m.accepted[m.taken - 1].command)
    ensures EngineOk(m.room.engine)
    ensures var c := Carried(m, opts, input, saved); RoomInv(c.room) && RecordOk(c.room.id, c.record)
  {
    hide RoomInv, RecordOk, EngineOk, Execute, Synced, Counted, AnswersOk, NothingBehindStop;
    assert input.now != ZERO_TIME;
    var command := m.accepted[m.taken - 1].command;
    ExecutedRoom(m.room, command, opts, input, Counted(m.room, opts).revision);
    var r' := Execute(m.room, command, opts, input).room;
    ExecutedRoom(m.room, command, opts, input, Counted(r', opts).revision);
    EngineFine(r');
    BuiltRecord(m.room, m.record, opts, input.now, saved);
    BuiltRecord(r', m.record, opts, input.now, saved);
    CountedFrame(r', opts);
    hide InputOk;
  }

  lemma CarriedKeeps(m: Mailbox, opts: Options, input: Input, saved: bool)
    requires InOrder(m) && m.loop.Busy? && InputOk(input) && OptionsOk(opts)
    ensures InOrder(Carried(m, opts, input, saved))
  {
    var command := m.accepted[m.taken - 1].command;
    EngineFine(m.room);
    assert !m.room.destroyed;
    ExecuteIdentity(m.room, command, opts, input);
    assert ClosesWithDestroy(m.room, Execute(m.room, command, opts, input).room);
    CarriedQueue(m, opts, input, saved);
    CarriedRoom(m, opts, input, saved);
    CarriedTimers(m, opts, input, saved);
    assert Carried(m, opts, input, saved).accepted == m.accepted;
    hide RoomInv, EngineOk, Carried, AnswersOk, TimersOk, RecordOk, InputOk, OptionsOk, Execute;
  }

  lemma AdvancedKeeps(m: Mailbox, opts: Options, input: Input, saved: bool)
    requires InOrder(m) && OptionsOk(opts) && CanAdvance(m) && InputOk(input)
    ensures EngineOk(m.room.engine) && InOrder(Advanced(m, opts, input, saved))
  {
    hide EngineOk, InputOk, RoomInv, TimersOk, RecordOk, AnswersOk, Carried, Replied, Drained, OptionsOk;
    EngineFine(m.room);
    match m.loop
    case Idle => TakenKeeps(m);
    case Busy => CarriedKeeps(m, opts, input, saved);
    case Answering(_, _) => RepliedKeeps(m);
    case Draining => DrainedKeeps(m);
  }

  lemma InvCounts(m: Mailbox)
    requires InOrder(m)
    ensures CountsOk(m) && EngineOk(m.room.engine)
  {
    EngineFine(m.room);
    hide EngineOk, RoomInv, TimersOk, RecordOk, AnswersOk;
  }

  lemma PerformInOrder(m: Mailbox, step: Step, opts: Options)
    requires InOrder(m) && OptionsOk(opts) && Enabled(m, step)
    ensures CountsOk(m) && EngineOk(m.room.engine) && InOrder(Perform(m, step, opts))
  {
    hide InOrder, Put, EngineOk, Fired, Advanced, InputOk, OptionsOk;
    InvCounts(m);
    match step
    case Submit(job) => if Accepts(m) { PutKeeps(m, job); }
    case Fire(event) => FiredKeeps(m, event);
    case Advance(input, saved) => AdvancedKeeps(m, opts, input, saved);
  }

  // ----- Beginnings -----

  function Begin(room: RoomState, record: Option<RoomSnapshot>, watched: bool): Mailbox {
    Mailbox(room, [], 0, 0, [], Idle, {}, {}, record, watched, false)
  }

  lemma BeginQueue(room: RoomState, record: Option<RoomSnapshot>, watched: bool)
    requires !room.destroyed && !room.closing
    ensures QueueInv(Begin(room, record, watched)) && OnTheWay(Begin(room, record, watched)) == room.armed
  {
    assert Jobs([]) == [];
  }

  lemma NewRoomInOrder(id: string, maxPlayers: int, owner: Session)
    requires !Blank(id) && SessionOk(owner)
    ensures InOrder(Begin(NewRoom(id, maxPlayers, owner), None, true))
  {
    var r := NewRoom(id, maxPlayers, owner);
    NewRoomInv(id, maxPlayers, owner);
    BeginQueue(r, None, true);
    ConnectedAt(r.members, 0);
    hide RoomInv, QueueInv, HasConnected;
  }

  lemma RestartInOrder(m: Mailbox, opts: Options, now: int)
    requires InOrder(m) && m.record.Some? && OptionsOk(opts)
    ensures var back := RestoreRoom(m.room.id, m.record.value, opts, now);
            && back.Ok? && InOrder(Begin(back.value, m.record, false))
            && exists r: RoomState, at: int :: WrittenAs(r, at, m.room.id, m.record.value) && SameAfterRestart(r, back.value)
  {
    var r: RoomState, at: int :| WrittenAs(r, at, m.room.id, m.record.value);
    SavedRoomRestores(r, at, opts, now);
    var back := RestoreRoom(m.room.id, m.record.value, opts, now).value;
    assert SameAfterRestart(r, back);
    assert RecordOk(back.id, m.record);
    hide RoomInv, RestoreRoom, RecordOk, InOrder, WrittenAs;
    RestoredInOrder(m.room.id, m.record.value, m.record, opts, now);
  }

  /** A restored room that is in order begins in order, with whatever is in the store. */
  lemma RestoredInOrder(recordID: string, s: RoomSnapshot, record: Option<RoomSnapshot>, opts: Options, now: int)
    requires OptionsOk(opts) && RestoreRoom(recordID, s, opts, now).Ok?
    requires RoomInv(RestoreRoom(recordID, s, opts, now).value)
    requires RecordOk(RestoreRoom(recordID, s, opts, now).value.id, record)
    ensures InOrder(Begin(RestoreRoom(recordID, s, opts, now).value, record, false))
  {
    var back := RestoreRoom(recordID, s, opts, now).value;
    RestoredFields(recordID, s, opts, now);
    BeginQueue(back, record, false);
    RestoredTimers(recordID, s, opts, now);
    hide RoomInv, QueueInv, RestoreRoom, RecordOk, EngineOk, TurnInv, EmptyInv, InOrder;
    assert TimersOk(Begin(back, record, false));
    BeginInv(back, record);
  }

  lemma BeginInv(back: RoomState, record: Option<RoomSnapshot>)
    requires QueueInv(Begin(back, record, false)) && RoomInv(back) && TimersOk(Begin(back, record, false)) && RecordOk(back.id, record)
    ensures InOrder(Begin(back, record, false))
  {
    hide QueueInv, RoomInv, TimersOk, RecordOk;
  }

  /** A room that comes back to a round has one timer running, for an automatic turn, and everybody is managed. */
  lemma RestoredFields(recordID: string, s: RoomSnapshot, opts: Options, now: int)
    requires OptionsOk(opts) && RestoreRoom(recordID, s, opts, now).Ok?
    ensures var back := RestoreRoom(recordID, s, opts, now).value;
            && back.emptyTimer.None? && back.emptyToken == 0 && !back.destroyed && !back.closing
            && (forall i :: 0 <= i < |back.members| && back.phase == RoomPlaying ==> back.members[i].autoPlay)
            && (if back.phase == RoomPlaying && back.engine.Some? then
                  back.turnToken == 1 && back.armed == {TurnEvent(AutoPlayTurn, 1)}
                else back.armed == {})
  {
    hide ValidRoomSnapshot, Snapshots.Restore;
  }

  lemma RestoredTimers(recordID: string, s: RoomSnapshot, opts: Options, now: int)
    requires OptionsOk(opts) && RestoreRoom(recordID, s, opts, now).Ok?
    requires RoomInv(RestoreRoom(recordID, s, opts, now).value)
    ensures var back := RestoreRoom(recordID, s, opts, now).value;
            EngineOk(back.engine) && TurnInv(back, back.armed) && EmptyInv(back, back.armed, false)
  {
    hide RestoreRoom, HasConnected;
    var back := RestoreRoom(recordID, s, opts, now).value;
    EngineFine(back);
    RestoredFields(recordID, s, opts, now);
    if back.phase == RoomPlaying {
      Playing(back);
      CurrentActor(back);
    }
    hide RoomInv, EngineOk, Actor, Expected;
  }

  lemma Playing(r: RoomState)
    requires RoomInv(r) && r.phase == RoomPlaying
    ensures r.engine.Some?
  {
  }

  // ----- Every event is in one place -----

  ghost predicate OnceEach(jobs: seq<Job>) {
    forall i, j :: 0 <= i < j < |jobs| && jobs[i].command.Timer? ==> jobs[j].command != jobs[i].command
  }

  /** No event is armed, dropped, late or in the mailbox twice, or in two of these places. */
  ghost predicate Apart(armed: set<TimerEvent>, dropped: set<TimerEvent>, late: set<TimerEvent>, jobs: seq<Job>) {
    && armed * dropped == {} && armed * late == {} && dropped * late == {}
    && (forall j :: 0 <= j < |jobs| && jobs[j].command.Timer? ==> jobs[j].command.event !in armed + dropped + late)
    && OnceEach(jobs)
  }

  ghost predicate EventsApart(m: Mailbox)
    requires CountsOk(m)
  {
    Apart(m.room.armed, m.dropped, m.late, Pending(m)) && (m.late != {} ==> m.room.closing)
  }

  lemma ApartPut(armed: set<TimerEvent>, dropped: set<TimerEvent>, late: set<TimerEvent>, jobs: seq<Job>, job: Job)
    requires Apart(armed, dropped, late, jobs)
    requires job.command.Timer? ==> job.command.event in armed
    ensures Apart(if job.command.Timer? then armed - {job.command.event} else armed, dropped, late, jobs + [job])
  {
    if job.command.Timer? {
      var e := job.command.event;
      assert e !in armed * dropped && e !in armed * late;
      assert forall i :: 0 <= i < |jobs| ==> jobs[i].command != job.command;
    }
  }

  lemma ApartTail(armed: set<TimerEvent>, dropped: set<TimerEvent>, late: set<TimerEvent>, jobs: seq<Job>)
    requires Apart(armed, dropped, late, jobs) && jobs != []
    ensures Apart(armed, dropped, late, jobs[1..])
  {
  }

  lemma ApartArmed(armed: set<TimerEvent>, armed': set<TimerEvent>, dropped: set<TimerEvent>, late: set<TimerEvent>,
                   jobs: seq<Job>)
    requires Apart(armed, dropped, late, jobs)
    requires forall e :: e in armed' && e !in armed ==> e !in dropped + late + TimersIn(jobs)
    requires armed <= armed'
    ensures Apart(armed', dropped, late, jobs)
  {
    forall j | 0 <= j < |jobs| && jobs[j].command.Timer? ensures jobs[j].command.event !in armed' + dropped + late {
      assert jobs[j] in jobs;
      assert jobs[j].command.event in TimersIn(jobs);
    }
  }

  lemma PutApart(m: Mailbox, job: Job)
    requires CountsOk(m) && CountsOk(Put(m, job)) && EventsApart(m) && !job.command.Timer?
    ensures EventsApart(Put(m, job))
  {
    assert Pending(Put(m, job)) == Pending(m) + [job];
    ApartPut(m.room.armed, m.dropped, m.late, Pending(m), job);
    hide Apart;
  }

  lemma FiredApart(m: Mailbox, event: TimerEvent)
    requires QueueInv(m) && CountsOk(Fired(m, event)) && EventsApart(m) && event in m.room.armed
    ensures EventsApart(Fired(m, event))
  {
    hide AnswersOk, NothingBehindStop;
    FiredPending(m, event);
    var f := Fired(m, event);
    assert f.room == m.room.(armed := m.room.armed - {event});
    assert m.loop.Exited? ==> m.room.closing;
    hide Fired, Pending, Accepts, Apart;
    ApartPut(m.room.armed, m.dropped, m.late, Pending(m), Job(Timer(event), false));
    ApartLost(m.room.armed, m.dropped, m.late, Pending(m), event);
  }

  lemma ApartLost(armed: set<TimerEvent>, dropped: set<TimerEvent>, late: set<TimerEvent>, jobs: seq<Job>, e: TimerEvent)
    requires Apart(armed, dropped, late, jobs) && e in armed
    ensures Apart(armed - {e}, dropped + {e}, late, jobs) && Apart(armed - {e}, dropped, late + {e}, jobs)
  {
    hide OnceEach;
    assert e !in armed * dropped && e !in armed * late;
  }

  /** What a command arms is new: its token has never been used. */
  lemma ArmedAnew(r: RoomState, r': RoomState, before: set<TimerEvent>, watched: bool)
    requires EngineOk(r.engine) && EngineOk(r'.engine)
    requires TurnInv(r, before) && EmptyInv(r, before, watched) && TurnStep(r, r') && EmptyStep(r, r')
    ensures forall e :: e in r'.armed && e !in r.armed ==> e !in before
  {
    hide EngineOk, HasConnected, Expected;
  }

  lemma CarriedApart(m: Mailbox, opts: Options, input: Input, saved: bool)
    requires InOrder(m) && EventsApart(m) && m.loop.Busy? && InputOk(input) && OptionsOk(opts)
    requires CountsOk(Carried(m, opts, input, saved))
    ensures EventsApart(Carried(m, opts, input, saved))
  {
    var command := m.accepted[m.taken - 1].command;
    var c := Carried(m, opts, input, saved);
    hide Synced, RoomInv, AnswersOk, NothingBehindStop, RecordOk, EngineOk, InputOk, OptionsOk, TurnInv, EmptyInv, Execute,
         OnTheWay, Counted, Apart, TurnStep, EmptyStep;
    EngineFine(m.room);
    assert Pending(c) == Pending(m)[1..];
    ApartTail(m.room.armed, m.dropped, m.late, Pending(m));
    CarriedEvents(m, opts, input, saved);
    ExecuteIdentity(m.room, command, opts, input);
    var r' := Execute(m.room, command, opts, input).room;
    if command.Stop? {
      StopArmsNothing(m.room, opts, input);
    } else {
      ExecuteTurn(m.room, command, opts, input);
      ExecuteEmpty(m.room, command, opts, input);
      ArmedAnew(m.room, r', OnTheWay(m), m.watched);
    }
    CountedFrame(r', opts);
    ApartArmed(m.room.armed, r'.armed, m.dropped, m.late, Pending(c));
  }

  lemma StopArmsNothing(r: RoomState, opts: Options, input: Input)
    requires EngineOk(r.engine) && InputOk(input)
    ensures Execute(r, Stop, opts, input).room.armed == r.armed
  {
    hide EngineOk, InputOk;
  }

  lemma AdvancedApart(m: Mailbox, opts: Options, input: Input, saved: bool)
    requires InOrder(m) && EventsApart(m) && OptionsOk(opts) && CanAdvance(m) && InputOk(input)
    ensures EngineOk(m.room.engine) && CountsOk(Advanced(m, opts, input, saved))
    ensures EventsApart(Advanced(m, opts, input, saved))
  {
    hide EngineOk, InputOk, RoomInv, TimersOk, RecordOk, AnswersOk, Carried, OptionsOk, Apart;
    EngineFine(m.room);
    AdvancedKeeps(m, opts, input, saved);
    match m.loop
    case Idle => assert Pending(Advanced(m, opts, input, saved)) == Pending(m);
    case Busy => CarriedApart(m, opts, input, saved);
    case Answering(_, _) => assert Pending(Replied(m)) == Pending(m);
    case Draining =>
      if Queue(m) != [] {
        assert Pending(Drained(m)) == Pending(m)[1..];
        ApartTail(m.room.armed, m.dropped, m.late, Pending(m));
      } else {
        assert Pending(Drained(m)) == Pending(m);
      }
  }

  // ----- Together -----

  ghost predicate MailboxInv(m: Mailbox) {
    InOrder(m) && EventsApart(m)
  }

  /** Whatever happens next, a room behind its mailbox stays in order. */
  lemma PerformKeeps(m: Mailbox, step: Step, opts: Options)
    requires MailboxInv(m) && OptionsOk(opts) && Enabled(m, step)
    ensures CountsOk(m) && EngineOk(m.room.engine) && MailboxInv(Perform(m, step, opts))
  {
    hide Put, EngineOk, Fired, Advanced, InputOk, OptionsOk, RoomInv, TimersOk, RecordOk, AnswersOk, NothingBehindStop, Apart;
    PerformInOrder(m, step, opts);
    match step
    case Submit(job) => if Accepts(m) { PutApart(m, job); }
    case Fire(event) => FiredApart(m, event);
    case Advance(input, saved) => AdvancedApart(m, opts, input, saved);
  }

  /** An accepted record whose room is in order begins in order, with an empty store or one that holds a good record. */
  lemma RestoredBegins(recordID: string, s: RoomSnapshot, record: Option<RoomSnapshot>, opts: Options, now: int)
    requires OptionsOk(opts) && RestoreRoom(recordID, s, opts, now).Ok?
    requires RoomInv(RestoreRoom(recordID, s, opts, now).value)
    requires RecordOk(RestoreRoom(recordID, s, opts, now).value.id, record)
    ensures MailboxInv(Begin(RestoreRoom(recordID, s, opts, now).value, record, false))
  {
    RestoredInOrder(recordID, s, record, opts, now);
    RestoredFields(recordID, s, opts, now);
    hide InOrder, EventsApart, RestoreRoom, RoomInv, RecordOk;
    BeginApart(RestoreRoom(recordID, s, opts, now).value, record, false);
  }

  lemma BeginApart(room: RoomState, record: Option<RoomSnapshot>, watched: bool)
    requires !room.destroyed && !room.closing
    ensures CountsOk(Begin(room, record, watched)) && EventsApart(Begin(room, record, watched))
  {
  }

  /** A new room starts in order. */
  lemma NewRoomBegins(id: string, maxPlayers: int, owner: Session)
    requires !Blank(id) && SessionOk(owner)
    ensures MailboxInv(Begin(NewRoom(id, maxPlayers, owner), None, true))
  {
    NewRoomInOrder(id, maxPlayers, owner);
    BeginApart(NewRoom(id, maxPlayers, owner), None, true);
    hide InOrder, EventsApart;
  }

  /** So does a room restored from anything a run has left in the store: it is the saved room, with everybody offline and,
      while a round is on, the automatic timer running. */
  lemma RestartBegins(m: Mailbox, opts: Options, now: int)
    requires MailboxInv(m) && m.record.Some? && OptionsOk(opts)
    ensures var back := RestoreRoom(m.room.id, m.record.value, opts, now);
            && back.Ok? && MailboxInv(Begin(back.value, m.record, false))
            && exists r: RoomState, at: int :: WrittenAs(r, at, m.room.id, m.record.value) && SameAfterRestart(r, back.value)
  {
    hide InOrder, EventsApart, RestoreRoom, WrittenAs, EngineOk;
    RestartInOrder(m, opts, now);
    var back := RestoreRoom(m.room.id, m.record.value, opts, now).value;
    BeginApart(back, m.record, false);
  }

  // ----- Without knowing anything of the room -----

  /** All the queue needs to work. */
  ghost predicate Sane(m: Mailbox) {
    QueueInv(m) && EngineOk(m.room.engine)
  }

  /** The mailbox works whatever state the room is in. */
  lemma PerformSane(m: Mailbox, step: Step, opts: Options)
    requires Sane(m) && Enabled(m, step)
    ensures Sane(Perform(m, step, opts))
  {
    hide EngineOk, InputOk, AnswersOk, NothingBehindStop, Execute, Synced, Counted;
    match step
    case Submit(job) => if Accepts(m) { PutQueue(m, job); }
    case Fire(event) => FiredQueue(m, event);
    case Advance(input, saved) =>
      match m.loop
      case Idle => TakenQueue(m);
      case Busy => CarriedSane(m, opts, input, saved);
      case Answering(_, _) => RepliedQueue(m);
      case Draining => DrainedQueue(m);
  }

  lemma CarriedSane(m: Mailbox, opts: Options, input: Input, saved: bool)
    requires Sane(m) && m.loop.Busy? && InputOk(input)
    ensures Sane(Carried(m, opts, input, saved))
  {
    hide EngineOk, InputOk, AnswersOk, NothingBehindStop, Execute, Synced;
    var command := m.accepted[m.taken - 1].command;
    ExecuteIdentity(m.room, command, opts, input);
    assert ClosesWithDestroy(m.room, Execute(m.room, command, opts, input).room);
    CarriedQueue(m, opts, input, saved);
  }
}
