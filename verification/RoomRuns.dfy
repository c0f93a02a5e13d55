/** Whole runs of a room: from its creation, through any commands, timers and crashes. */
module RoomRuns {
  import opened Wrappers
  import opened Rules
  import opened Snapshots
  import opened Rooms
  import opened RoomInvariant
  import opened RoomSnapshots
  import opened RoomTimers
  import opened RoomCollection
  import opened Mailboxes
  import opened MailboxRuns

  // ----- Runs -----

  ghost function Performed(m: Mailbox, step: Step, opts: Options): (m': Mailbox)
    requires Sane(m) && Enabled(m, step)
    ensures Sane(m')
  {
    PerformSane(m, step, opts);
    Perform(m, step, opts)
  }

  ghost predicate CanRun(m: Mailbox, steps: seq<Step>, opts: Options)
    requires Sane(m)
    decreases |steps|
  {
    steps != [] ==> Enabled(m, steps[0]) && CanRun(Performed(m, steps[0], opts), steps[1..], opts)
  }

  ghost function After(m: Mailbox, steps: seq<Step>, opts: Options): (m': Mailbox)
    requires Sane(m) && CanRun(m, steps, opts)
    ensures Sane(m')
    decreases |steps|
  {
    if steps == [] then m else After(Performed(m, steps[0], opts), steps[1..], opts)
  }

  lemma InvSane(m: Mailbox)
    requires MailboxInv(m)
    ensures Sane(m)
  {
    EngineFine(m.room);
    hide EngineOk, QueueInv, RoomInv, TimersOk, RecordOk, EventsApart;
  }

  lemma PerformedInv(m: Mailbox, step: Step, opts: Options)
    requires MailboxInv(m) && OptionsOk(opts) && Enabled(m, step)
    ensures Sane(m) && MailboxInv(Performed(m, step, opts))
  {
    InvSane(m);
    PerformKeeps(m, step, opts);
    hide MailboxInv, Sane, Perform, OptionsOk;
  }

  /** At every moment of a run that begins in order, everything is in order. */
  lemma {:induction false} AfterInv(m: Mailbox, steps: seq<Step>, opts: Options)
    requires MailboxInv(m) && Sane(m) && OptionsOk(opts) && CanRun(m, steps, opts)
    ensures MailboxInv(After(m, steps, opts))
    decreases |steps|
  {
    hide MailboxInv, Sane, Performed, OptionsOk;
    if steps != [] {
      PerformedInv(m, steps[0], opts);
      AfterInv(Performed(m, steps[0], opts), steps[1..], opts);
    }
  }

  // ----- Everything saved can be restored -----

  /** A run may crash at any moment once something is stored, and goes on from what the store holds. */
  datatype Event = Do(step: Step) | Crash(now: int)

  ghost predicate Possible(m: Mailbox, event: Event, opts: Options)
    requires MailboxInv(m) && OptionsOk(opts)
  {
    match event
    case Do(step) => Enabled(m, step)
    case Crash(_) => m.record.Some?
  }

  ghost function Happen(m: Mailbox, event: Event, opts: Options): (m': Mailbox)
    requires MailboxInv(m) && OptionsOk(opts) && Possible(m, event, opts)
    ensures MailboxInv(m')
  {
    match event
    case Do(step) => PerformedInv(m, step, opts); Performed(m, step, opts)
    case Crash(now) =>
      RestartBegins(m, opts, now);
      Begin(RestoreRoom(m.room.id, m.record.value, opts, now).value, m.record, false)
  }

  ghost predicate CanLive(m: Mailbox, events: seq<Event>, opts: Options)
    requires MailboxInv(m) && OptionsOk(opts)
    decreases |events|
  {
    events != [] ==> Possible(m, events[0], opts) && CanLive(Happen(m, events[0], opts), events[1..], opts)
  }

  ghost function Lived(m: Mailbox, events: seq<Event>, opts: Options): (m': Mailbox)
    requires MailboxInv(m) && OptionsOk(opts) && CanLive(m, events, opts)
    ensures MailboxInv(m')
    decreases |events|
  {
    if events == [] then m else Lived(Happen(m, events[0], opts), events[1..], opts)
  }

  lemma RecordIsGood(m: Mailbox, opts: Options, now: int)
    requires MailboxInv(m) && m.record.Some? && OptionsOk(opts)
    ensures ValidRoomSnapshot(m.room.id, m.record.value)
    ensures m.record.value.engine.Some? ==> ValidSnapshot(m.record.value.engine.value)
    ensures var back := RestoreRoom(m.room.id, m.record.value, opts, now); back.Ok? && RoomInv(back.value)
  {
    var r: RoomState, at: int :| WrittenAs(r, at, m.room.id, m.record.value);
    SavedRoomValid(r, at);
    SavedRoomRestores(r, at, opts, now);
    hide MailboxInv, RoomInv, ValidRoomSnapshot, ValidSnapshot, RestoreRoom, BuildSnapshot;
  }

  /** From a new room, through any number of crashes: what the store holds is always accepted and always restores to a
      room in order, and the room and its engine agree on whether a round is on. */
  lemma EverySavedRoomRestores(id: string, maxPlayers: int, owner: Session, events: seq<Event>, opts: Options, now: int)
    requires !Blank(id) && SessionOk(owner) && OptionsOk(opts)
    ensures MailboxInv(Begin(NewRoom(id, maxPlayers, owner), None, true))
    ensures CanLive(Begin(NewRoom(id, maxPlayers, owner), None, true), events, opts) ==>
              var m := Lived(Begin(NewRoom(id, maxPlayers, owner), None, true), events, opts);
              && (m.room.phase == RoomPlaying <==> m.room.engine.Some? && m.room.engine.value.phase != Finished)
              && (m.room.phase == RoomSettled <==> m.room.engine.Some? && m.room.engine.value.phase == Finished)
              && (m.record.Some? ==>
                    && ValidRoomSnapshot(m.room.id, m.record.value)
                    && (m.record.value.engine.Some? ==> ValidSnapshot(m.record.value.engine.value))
                    && RestoreRoom(m.room.id, m.record.value, opts, now).Ok?)
  {
    NewRoomBegins(id, maxPlayers, owner);
    var m0 := Begin(NewRoom(id, maxPlayers, owner), None, true);
    if CanLive(m0, events, opts) {
      var m := Lived(m0, events, opts);
      hide Lived, CanLive, ValidRoomSnapshot, RestoreRoom, ValidSnapshot, NewRoom, QueueInv, TimersOk, RecordOk, RoomInv;
      RoomFollowsEngine(m.room);
      if m.record.Some? {
        RecordIsGood(m, opts, now);
      }
    }
  }

  // ----- Replies -----

  /** At every moment the replies given are those of the jobs dealt with so far: in order, one each. */
  lemma RepliesInOrder(m: Mailbox)
    requires Sane(m)
    ensures var n := Settledness(m);
            && (forall i :: 0 <= i < n && m.accepted[i].done ==> i in Jobs(m.answers))
            && (forall j, k :: 0 <= j < k < |m.answers| ==> m.answers[j].job < m.answers[k].job)
            && (forall k :: 0 <= k < |m.answers| ==> m.answers[k].job < n && m.accepted[m.answers[k].job].done)
  {
    ExpectingExactly(m.accepted, Settledness(m));
    assert Jobs(m.answers) == Expecting(m.accepted, Settledness(m));
    hide Sane, Expecting;
    forall k | 0 <= k < |m.answers|
      ensures m.answers[k].job < Settledness(m) && m.accepted[m.answers[k].job].done
    {
      assert Jobs(m.answers)[k] in Jobs(m.answers);
    }
    forall j, k | 0 <= j < k < |m.answers| ensures m.answers[j].job < m.answers[k].job {
      assert Jobs(m.answers)[j] < Jobs(m.answers)[k];
    }
  }

  /** Once the loop has left, however it left: the mailbox is empty, takes nothing more, and everybody who waited for a
      job has had exactly one reply. */
  lemma NothingLeftBehind(m: Mailbox, job: Job)
    requires Sane(m) && m.loop.Exited?
    ensures Queue(m) == [] && Submitted(m, job) == m
    ensures forall i :: 0 <= i < |m.accepted| && m.accepted[i].done ==> i in Jobs(m.answers)
    ensures forall j, k :: 0 <= j < k < |m.answers| ==> m.answers[j].job < m.answers[k].job
    ensures forall k :: 0 <= k < |m.answers| && m.answers[k].job >= m.executed ==>
                          m.answers[k].job < |m.accepted| && m.answers[k].error == TurnedAway(m.accepted[m.answers[k].job])
  {
    RepliesInOrder(m);
    hide Jobs, EngineOk;
  }

  /** Nothing is ever accepted behind a stop. */
  lemma StopIsLast(m: Mailbox, i: nat)
    requires Sane(m) && i < |m.accepted| && m.accepted[i].command.Stop?
    ensures i == |m.accepted| - 1 && m.room.closing
  {
    hide EngineOk, AnswersOk;
  }

  /** How many steps the loop needs at most until job `k` has been dealt with. */
  function Distance(m: Mailbox, k: nat): int {
    if k < m.taken - 1 then 0
    else if k == m.taken - 1 then (if m.loop.Busy? then 2 else if m.loop.Answering? then 1 else 0)
    else 3 * (k - m.taken) + (if m.loop.Busy? then 5 else if m.loop.Answering? then 4 else 3)
  }

  /** Where the loop stands after one move. */
  lemma LoopMoves(m: Mailbox, input: Input, saved: bool, opts: Options)
    requires Sane(m) && InputOk(input) && Enabled(m, Advance(input, saved))
    ensures var m' := Performed(m, Advance(input, saved), opts);
            && m'.accepted == m.accepted
            && match m.loop
               case Idle => m'.taken == m.taken + 1 && m'.loop.Busy?
               case Busy => m'.taken == m.taken && m'.loop.Answering?
               case Answering(_, _) => m'.taken == m.taken && (m'.loop.Idle? || m'.loop.Draining? || m'.loop.Exited?)
               case Draining => m'.taken == (if Queue(m) == [] then m.taken else m.taken + 1) && !m'.loop.Busy? && !m'.loop.Answering?
               case Exited => true
  {
    hide EngineOk, AnswersOk, NothingBehindStop, Execute, Synced, Counted, InputOk;
  }

  lemma LeavesEmpty(m: Mailbox)
    requires Sane(m)
    ensures m.taken <= |m.accepted| && (m.loop.Busy? || m.loop.Answering? ==> m.taken > 0)
    ensures m.loop.Exited? ==> m.taken == |m.accepted|
  {
    hide EngineOk, AnswersOk, NothingBehindStop;
  }

  /** While a job has not been dealt with the loop can move, and every move of the loop brings the job closer. */
  lemma LoopComesCloser(m: Mailbox, k: nat, input: Input, saved: bool, opts: Options)
    requires Sane(m) && InputOk(input) && Settledness(m) <= k < |m.accepted|
    ensures Enabled(m, Advance(input, saved))
    ensures var m' := Performed(m, Advance(input, saved), opts);
            Distance(m', k) < Distance(m, k) && k < |m'.accepted| && m'.accepted[k] == m.accepted[k]
  {
    LeavesEmpty(m);
    hide Sane, Performed, InputOk;
    LoopMoves(m, input, saved, opts);
    LeavesEmpty(Performed(m, Advance(input, saved), opts));
  }

  lemma OthersKeepDistance(m: Mailbox, step: Step, k: nat, opts: Options)
    requires Sane(m) && Enabled(m, step) && k < |m.accepted| && !step.Advance?
    ensures var m' := Performed(m, step, opts);
            Distance(m', k) == Distance(m, k) && k < |m'.accepted| && m'.accepted[k] == m.accepted[k]
  {
    hide EngineOk, AnswersOk, InputOk;
  }

  function Moves(steps: seq<Step>): nat {
    if steps == [] then 0 else (if steps[0].Advance? then 1 else 0) + Moves(steps[1..])
  }

  lemma DealtWith(m: Mailbox, k: nat)
    requires Sane(m) && k < |m.accepted| && m.accepted[k].done && Distance(m, k) <= 0
    ensures k in Jobs(m.answers)
  {
    RepliesInOrder(m);
    hide EngineOk, AnswersOk, Jobs;
  }

  lemma AdvancedCloser(m: Mailbox, step: Step, k: nat, opts: Options)
    requires Sane(m) && Enabled(m, step) && k < |m.accepted| && step.Advance?
    ensures var m' := Performed(m, step, opts);
            && k < |m'.accepted| && m'.accepted[k] == m.accepted[k]
            && Distance(m', k) <= (if Distance(m, k) <= 0 then 0 else Distance(m, k) - 1)
  {
    if Settledness(m) <= k {
      LoopComesCloser(m, k, step.input, step.saved, opts);
      hide Sane, Performed, InputOk;
    } else {
      LeavesEmpty(m);
      LoopMoves(m, step.input, step.saved, opts);
      hide Sane, Performed, InputOk;
    }
  }

  /** Nobody is left waiting: once the loop has moved often enough, whatever happened in between, job `k` has its reply. */
  lemma {:induction false} NobodyIsLeftWaiting(m: Mailbox, steps: seq<Step>, k: nat, opts: Options)
    requires Sane(m) && CanRun(m, steps, opts)
    requires k < |m.accepted| && m.accepted[k].done && Moves(steps) >= Distance(m, k)
    ensures k in Jobs(After(m, steps, opts).answers)
    decreases |steps|
  {
    hide Sane, Performed, Distance, Jobs;
    if steps == [] {
      DealtWith(m, k);
    } else {
      if steps[0].Advance? {
        AdvancedCloser(m, steps[0], k, opts);
      } else {
        OthersKeepDistance(m, steps[0], k, opts);
      }
      NobodyIsLeftWaiting(Performed(m, steps[0], opts), steps[1..], k, opts);
    }
  }

  // ----- The turn timer -----

  /** The event is armed, or once in the mailbox, or lost: to a full mailbox, or to one that is closing. Never in two of
      these places. */
  ghost predicate InOnePlace(m: Mailbox, e: TimerEvent)
    requires CountsOk(m)
  {
    var queued := exists i :: 0 <= i < |Pending(m)| && Pending(m)[i].command == Timer(e);
    && (e in m.room.armed || queued || e in m.dropped || (e in m.late && m.room.closing))
    && (e in m.room.armed ==> !queued && e !in m.dropped && e !in m.late)
    && (e in m.dropped ==> !queued && e !in m.late)
    && (e in m.late ==> !queued)
    && (forall i, j :: 0 <= i < j < |Pending(m)| && Pending(m)[i].command == Timer(e) ==> Pending(m)[j].command != Timer(e))
  }

  lemma OnePlace(m: Mailbox, e: TimerEvent)
    requires CountsOk(m) && EventsApart(m) && e in OnTheWay(m)
    ensures InOnePlace(m, e)
  {
    assert e in m.room.armed ==> e !in m.room.armed * m.dropped && e !in m.room.armed * m.late;
    assert e in m.dropped ==> e !in m.dropped * m.late;
    if e in TimersIn(Pending(m)) {
      var job :| job in Pending(m) && job.command.Timer? && job.command.event == e;
      var i :| 0 <= i < |Pending(m)| && Pending(m)[i] == job;
    }
  }

  /** While a round is on, the event that will act next is in one place; it is an automatic turn exactly when the member
      who has to act is managed or away; and no other event is current. */
  lemma TurnTimerIsRight(m: Mailbox)
    requires MailboxInv(m) && m.room.phase == RoomPlaying && !m.room.destroyed && !m.stopped
    ensures var r := m.room;
            && r.engine.Some? && 0 <= r.engine.value.currentSeat < |r.members|
            && var actor := r.members[r.engine.value.currentSeat];
               var kind := if actor.autoPlay || !actor.connected then AutoPlayTurn else TurnTimeout;
               var event := TurnEvent(kind, r.turnToken);
               && InOnePlace(m, event)
               && (forall e :: e in OnTheWay(m) && e.TurnEvent? && e.token == r.turnToken ==> e == event)
  {
    hide RoomInv, AnswersOk, RecordOk, EngineOk, EmptyInv, Expected, TimersIn, Actor, IsActor, EventsApart, OnTheWay, InOnePlace;
    CurrentActor(m.room);
    OnePlace(m, Expected(m.room));
  }

  /** A turn event that is not the current one, and a collection event of an earlier arming, change nothing. */
  lemma StaleEventsChangeNothing(m: Mailbox, opts: Options, input: Input)
    requires MailboxInv(m) && m.loop.Busy? && InputOk(input) && OptionsOk(opts)
    requires m.accepted[m.taken - 1].command.Timer?
    requires var e := m.accepted[m.taken - 1].command.event;
             if e.TurnEvent? then m.room.phase != RoomPlaying || e != Expected(m.room) else e.token != m.room.emptyToken
    ensures Execute(m.room, m.accepted[m.taken - 1].command, opts, input).room == m.room
  {
    var command := m.accepted[m.taken - 1].command;
    EngineFine(m.room);
    assert !m.stopped && !m.room.destroyed;
    assert command.event in OnTheWay(m) by { TimersTail(Pending(m)); }
    assert command.event.TurnEvent? ==> command.event.token != m.room.turnToken by {
      hide RoomInv, QueueInv, RecordOk, EngineOk, EmptyInv, Expected, OnTheWay;
    }
    hide MailboxInv, EngineOk, Expected, Actor, AutoOutcome, HandleMessage, HandleDisconnect, TryReconnect, TryJoin;
  }

  // ----- Collection -----

  /** Nobody is connected at any moment of the run. */
  ghost predicate NeverConnected(m: Mailbox, steps: seq<Step>, opts: Options)
    requires Sane(m) && CanRun(m, steps, opts)
    decreases |steps|
  {
    !HasConnected(m.room.members) && (steps != [] ==> NeverConnected(Performed(m, steps[0], opts), steps[1..], opts))
  }

  /** The collection token never falls, and a running timer is only ever given up by moving it on. */
  ghost predicate TokenMoves(r: RoomState, r': RoomState) {
    && r'.emptyToken >= r.emptyToken
    && (r'.emptyToken == r.emptyToken && r.emptyTimer.Some? ==> r'.emptyTimer.Some?)
  }

  lemma CarriedToken(m: Mailbox, opts: Options, input: Input, saved: bool)
    requires MailboxInv(m) && m.loop.Busy? && InputOk(input) && OptionsOk(opts)
    ensures EngineOk(m.room.engine) && TokenMoves(m.room, Carried(m, opts, input, saved).room) && !m.stopped
  {
    hide RoomInv, TimersOk, RecordOk, AnswersOk, NothingBehindStop, Synced, InputOk, OptionsOk, EngineOk, HasConnected,
         HandleMessage, HandleDisconnect, TryReconnect, TryJoin, HandleTurnEvent, HandleEmptyEvent, ScheduleEmpty;
    EngineFine(m.room);
    var command := m.accepted[m.taken - 1].command;
    if command != Stop {
      ExecuteEmpty(m.room, command, opts, input);
      hide Execute;
      assert TokenMoves(m.room, Execute(m.room, command, opts, input).room);
    }
  }

  lemma TokenRises(m: Mailbox, step: Step, opts: Options)
    requires MailboxInv(m) && Sane(m) && OptionsOk(opts) && Enabled(m, step)
    ensures var m' := Performed(m, step, opts);
            TokenMoves(m.room, m'.room) && (m.stopped ==> m'.stopped)
  {
    hide RoomInv, TimersOk, RecordOk, AnswersOk, NothingBehindStop, InputOk, OptionsOk, EngineOk, Carried;
    if m.loop.Busy? && step.Advance? {
      CarriedToken(m, opts, step.input, step.saved);
      hide TokenMoves;
    }
  }

  lemma {:induction false} TokenRisesOver(m: Mailbox, steps: seq<Step>, opts: Options)
    requires MailboxInv(m) && Sane(m) && OptionsOk(opts) && CanRun(m, steps, opts)
    ensures After(m, steps, opts).room.emptyToken >= m.room.emptyToken
    ensures m.stopped ==> After(m, steps, opts).stopped
    decreases |steps|
  {
    hide MailboxInv, Sane, Performed, OptionsOk;
    if steps != [] {
      PerformedInv(m, steps[0], opts);
      TokenRises(m, steps[0], opts);
      TokenRisesOver(Performed(m, steps[0], opts), steps[1..], opts);
    }
  }

  lemma RunningMeansEmpty(m: Mailbox)
    requires MailboxInv(m) && !m.stopped && m.room.emptyTimer.Some?
    ensures !HasConnected(m.room.members)
  {
    hide RoomInv, QueueInv, RecordOk, EventsApart, EngineOk, TurnInv, HasConnected;
  }

  lemma {:induction false} SameTokenNeverConnected(m: Mailbox, steps: seq<Step>, opts: Options)
    requires MailboxInv(m) && Sane(m) && OptionsOk(opts) && CanRun(m, steps, opts)
    requires m.room.emptyTimer.Some? && !After(m, steps, opts).stopped
    requires After(m, steps, opts).room.emptyToken == m.room.emptyToken
    ensures NeverConnected(m, steps, opts)
    decreases |steps|
  {
    TokenRisesOver(m, steps, opts);
    RunningMeansEmpty(m);
    hide MailboxInv, Sane, Performed, OptionsOk, HasConnected;
    if steps != [] {
      PerformedInv(m, steps[0], opts);
      TokenRises(m, steps[0], opts);
      TokenRisesOver(Performed(m, steps[0], opts), steps[1..], opts);
      SameTokenNeverConnected(Performed(m, steps[0], opts), steps[1..], opts);
    }
  }

  /** A room is collected only if nobody has been connected at any moment since the timer that fired was armed. */
  lemma CollectedOnlyWhileEmpty(m: Mailbox, steps: seq<Step>, token: nat, opts: Options, input: Input)
    requires MailboxInv(m) && Sane(m) && OptionsOk(opts) && CanRun(m, steps, opts) && InputOk(input)
    requires EmptyEvent(token) in m.room.armed
    requires var e := After(m, steps, opts);
             && e.loop.Busy? && e.accepted[e.taken - 1].command == Timer(EmptyEvent(token))
             && Execute(e.room, Timer(EmptyEvent(token)), opts, input).room.destroyed
    ensures NeverConnected(m, steps, opts)
  {
    var e := After(m, steps, opts);
    AfterInv(m, steps, opts);
    TokenRisesOver(m, steps, opts);
    assert !e.stopped && !e.room.destroyed;
    assert token == e.room.emptyToken by {
      hide MailboxInv, After, EngineOk, HasConnected;
    }
    ArmedIsNotAhead(m, token);
    hide MailboxInv, Sane, Performed, OptionsOk, HasConnected, NeverConnected, After, Execute;
    SameTokenNeverConnected(m, steps, opts);
  }

  lemma ArmedIsNotAhead(m: Mailbox, token: nat)
    requires MailboxInv(m) && !m.stopped && EmptyEvent(token) in m.room.armed
    ensures token <= m.room.emptyToken && (token == m.room.emptyToken ==> m.room.emptyTimer.Some?)
  {
    hide RoomInv, QueueInv, RecordOk, EventsApart, EngineOk, TurnInv, HasConnected;
  }

  /** From the first snapshot command on, and in a new room from the start, the collection event of a room that nobody is
      connected to is in one place. */
  lemma EmptyRoomsAreWatched(m: Mailbox)
    requires MailboxInv(m) && m.watched && !m.stopped && !m.room.destroyed && !HasConnected(m.room.members)
    ensures InOnePlace(m, EmptyEvent(m.room.emptyToken))
  {
    hide RoomInv, AnswersOk, RecordOk, EngineOk, TurnInv, HasConnected, TimersIn, EventsApart, OnTheWay, InOnePlace;
    OnePlace(m, EmptyEvent(m.room.emptyToken));
  }

  /** A room is watched from its first snapshot command on, and ever after. */
  lemma WatchBegins(m: Mailbox, step: Step, opts: Options)
    requires Sane(m) && Enabled(m, step)
    ensures m.watched ==> Performed(m, step, opts).watched
    ensures step.Advance? && m.loop.Busy? && m.accepted[m.taken - 1].command == TakeRoomSnapshot ==>
              Performed(m, step, opts).watched
  {
    hide EngineOk, InputOk, AnswersOk, NothingBehindStop, Execute, Synced, Counted;
  }
}
