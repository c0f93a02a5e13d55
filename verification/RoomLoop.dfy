/** The mailbox loop as the program keeps it, one method for each step that others can come between. */
module RoomLoops {
  import opened Wrappers
  import opened Rooms
  import opened RoomSnapshots
  import opened RoomActors
  import opened Mailboxes

  /** What the snapshot store holds for one room: the last record saved, if it was not deleted since, and the players whose
      index entries were written or deleted with it. */
  class SnapshotStore {
    var record: Option<RoomSnapshot>
    var indexed: seq<int>
    var cleared: seq<int>

    constructor ()
      ensures record == None && indexed == [] && cleared == []
    {
      record, indexed, cleared := None, [], [];
    }

    method SaveRoomSnapshot(playerIDs: seq<int>, s: RoomSnapshot)
      modifies this
      ensures record == Some(s) && indexed == playerIDs && cleared == []
    {
      record, indexed, cleared := Some(s), playerIDs, [];
    }

    method DeleteRoomSnapshot(playerIDs: seq<int>)
      modifies this
      ensures record == None && indexed == [] && cleared == playerIDs
    {
      record, indexed, cleared := None, [], playerIDs;
    }
  }

  class RoomLoop {
    const room: Room
    const store: SnapshotStore
    var accepted: seq<Job>
    var taken: nat
    var executed: nat
    var answers: seq<Answer>
    var loop: Loop
    var dropped: set<TimerEvent>
    var late: set<TimerEvent>
    var watched: bool
    var stopped: bool

    function State(): Mailbox
      reads this, room, room.engine, store
    {
      Mailbox(room.State(), accepted, taken, executed, answers, loop, dropped, late, store.record, watched, stopped)
    }

    ghost predicate Valid()
      reads this, room, room.engine, store
    {
      room.Valid() && taken <= |accepted| && (loop.Busy? || loop.Answering? ==> taken > 0)
    }

    constructor (room: Room, store: SnapshotStore, watched: bool)
      requires room.Valid()
      ensures Valid() && this.room == room && this.store == store
      ensures State() == Mailbox(room.State(), [], 0, 0, [], Idle, {}, {}, store.record, watched, false)
    {
      this.room, this.store, this.watched := room, store, watched;
      accepted, taken, executed, answers := [], 0, 0, [];
      loop, dropped, late, stopped := Idle, {}, {}, false;
    }

    /** Closed, left and full mailboxes refuse; accepting a stop closes the mailbox. */
    method Submit(job: Job) returns (ok: bool)
      requires Valid()
      modifies this`accepted, room`closing
      ensures Valid() && State() == Submitted(old(State()), job)
      ensures ok == Accepts(old(State()))
    {
      hide EngineOk;
      if room.closing {
        return false;
      }
      if loop.Exited? {
        return false;
      }
      if |accepted| - taken >= MAILBOX_SIZE {
        return false;
      }
      accepted := accepted + [job];
      if job.command.Stop? {
        room.closing := true;
      }
      ok := true;
    }

    /** A timer hands its event over, once. */
    method Fire(event: TimerEvent)
      requires Valid() && event in room.armed
      modifies this`accepted, this`dropped, this`late, room`closing, room`armed
      ensures Valid() && State() == Fired(old(State()), event)
    {
      hide EngineOk;
      room.armed := room.armed - {event};
      var ok := Submit(Job(Timer(event), false));
      if !ok {
        if room.closing || loop.Exited? {
          late := late + {event};
        } else {
          dropped := dropped + {event};
        }
      }
    }

    method TakeNext()
      requires Valid() && loop.Idle? && Queue(State()) != []
      modifies this`taken, this`loop
      ensures Valid() && State() == old(State()).(taken := old(taken) + 1, loop := Busy)
    {
      taken := taken + 1;
      loop := Busy;
    }

    method ActiveSnapshotPlayerIDs() returns (ids: seq<int>)
      ensures ids == ActiveIDs(room.members)
    {
      ids := [];
      for i := 0 to |room.members|
        invariant ids == ActiveIDs(room.members[..i])
      {
        assert room.members[..i + 1][..i] == room.members[..i];
        if !room.members[i].abandoned {
          ids := ids + [room.members[i].playerID];
        }
      }
      assert room.members[..|room.members|] == room.members;
    }

    method AllSnapshotPlayerIDs() returns (ids: seq<int>)
      ensures ids == MemberIDs(room.members)
    {
      ids := room.PlayerIDs();
    }

    /** Writes the room with the players who may come back, or deletes the record of one that is over with all of them. */
    method SyncSnapshot(now: int, saved: bool) returns (error: Option<RoomError>)
      requires room.Valid()
      modifies room`snapshotRevision, store
      ensures room.State() == Counted(old(room.State()), room.options)
      ensures store.record == Synced(old(room.State()), old(store.record), room.options, now, saved)
      ensures error == if room.options.hasSnapshots && !saved then Some(StoreFailed) else None
      ensures room.options.hasSnapshots && saved ==>
                if room.destroyed || room.phase == RoomSettled then store.cleared == MemberIDs(room.members)
                else store.indexed == ActiveIDs(room.members)
    {
      hide EngineOk, BuildSnapshot;
      if !room.options.hasSnapshots {
        return None;
      }
      if room.destroyed || room.phase == RoomSettled {
        var ids := AllSnapshotPlayerIDs();
        if saved {
          store.DeleteRoomSnapshot(ids);
        }
      } else {
        var s := room.BuildRoomSnapshot(now);
        var ids := ActiveSnapshotPlayerIDs();
        if saved {
          store.SaveRoomSnapshot(ids, s);
        }
      }
      error := if saved then None else Some(StoreFailed);
    }

    method CarryOut(input: Input, saved: bool)
      requires Valid() && loop.Busy? && InputOk(input)
      modifies this, room, room.engine, store
      ensures Valid() && (room.engine == old(room.engine) || fresh(room.engine))
      ensures State() == Carried(old(State()), room.options, input, saved)
    {
      hide EngineOk, InputOk, CarriedStop, CarriedCommand, Execute, Synced, Counted;
      var command := accepted[taken - 1].command;
      if command.Stop? {
        CarryStop(input, saved);
      } else {
        CommandCarried(State(), command, room.options, input, saved);
        CarryCommand(command, input, saved);
      }
    }

    method CarryStop(input: Input, saved: bool)
      requires Valid() && InputOk(input)
      modifies this`loop, this`stopped, this`executed, room, room.engine, store
      ensures room.Valid() && loop.Answering? && (room.engine == old(room.engine) || fresh(room.engine))
      ensures State() == CarriedStop(old(State()), room.options, input, saved)
    {
      hide EngineOk, InputOk, Execute, Synced, Counted;
      CountedRevision(room.State(), room.options, input);
      var error := SyncSnapshot(input.now, saved);
      loop := Answering(error, Leave);
      stopped := true;
      executed := taken;
      var _, _ := room.Handle(Stop, input);
    }

    method CarryCommand(command: RoomCommand, input: Input, saved: bool)
      requires room.Valid() && InputOk(input) && !command.Stop?
      modifies this`loop, this`watched, this`executed, room, room.engine, store
      ensures room.Valid() && (room.engine == old(room.engine) || fresh(room.engine))
      ensures var h := Execute(old(room.State()), command, room.options, input);
              && room.State() == Counted(h.room, room.options)
              && store.record == Synced(h.room, old(store.record), room.options, input.now, saved)
              && loop == Answering(h.error, if h.room.destroyed then DrainRest else GoOn)
      ensures executed == taken && watched == (old(watched) || command.TakeRoomSnapshot?)
    {
      hide EngineOk, InputOk, Execute, Synced, Counted;
      var error, stop := HandleAndSync(command, input, saved);
      loop := Answering(error, if stop then DrainRest else GoOn);
      watched := watched || command.TakeRoomSnapshot?;
      executed := taken;
    }

    method HandleAndSync(command: RoomCommand, input: Input, saved: bool) returns (error: Option<RoomError>, stop: bool)
      requires room.Valid() && InputOk(input) && !command.Stop?
      modifies room, room.engine, store
      ensures room.Valid() && (room.engine == old(room.engine) || fresh(room.engine))
      ensures var h := Execute(old(room.State()), command, room.options, input);
              && room.State() == Counted(h.room, room.options)
              && store.record == Synced(h.room, old(store.record), room.options, input.now, saved)
              && error == h.error && stop == h.room.destroyed
    {
      hide EngineOk, InputOk, Execute, Synced, Counted;
      ghost var h := Execute(room.State(), command, room.options, input);
      error, stop := room.Handle(command, input);
      assert room.State() == h.room && error == h.error && stop == h.room.destroyed;
      var _ := SyncSnapshot(input.now, saved);
      assert room.State() == Counted(h.room, room.options);
    }

    method Answer()
      requires Valid() && loop.Answering?
      modifies this`answers, this`loop
      ensures Valid() && State() == Replied(old(State()))
    {
      var job := accepted[taken - 1];
      if job.done {
        answers := answers + [Mailboxes.Answer(taken - 1, loop.error)];
      }
      loop := match loop.next case GoOn => Idle case DrainRest => Draining case Leave => Exited;
    }

    /** The loop's next move, whichever it is; others may come between any two. */
    method Advance(input: Input, saved: bool)
      requires Valid() && CanAdvance(State()) && InputOk(input)
      modifies this, room, room.engine, store
      ensures Valid() && (room.engine == old(room.engine) || fresh(room.engine))
      ensures State() == Advanced(old(State()), room.options, input, saved)
    {
      hide EngineOk, InputOk, Carried, Replied;
      match loop {
        case Idle => TakeNext();
        case Busy => CarryOut(input, saved);
        case Answering(_, _) => Answer();
        case Draining =>
          if taken < |accepted| {
            RejectNext();
          } else {
            loop := Exited;
          }
      }
    }

    /** Takes one job out and turns it away. */
    method RejectNext()
      requires Valid() && loop.Draining? && taken < |accepted|
      modifies this`taken, this`answers
      ensures Valid() && State() == Drained(old(State()))
    {
      hide EngineOk;
      var pending := accepted[taken];
      assert Queue(State()) != [];
      assert answers + [] == answers;
      if pending.done {
        if pending.command.Stop? {
          answers := answers + [Mailboxes.Answer(taken, None)];
        } else {
          answers := answers + [Mailboxes.Answer(taken, Some(RoomClosed))];
        }
      }
      taken := taken + 1;
    }

    /** Wakes everybody whose job is still in the mailbox; nothing is added any more, so this ends. */
    method RejectPendingCommands()
      requires Valid() && loop.Draining?
      modifies this`taken, this`answers, this`loop
      ensures Valid() && State() == DrainedOut(old(State()))
    {
      hide EngineOk, Queue;
      while taken < |accepted|
        invariant Valid() && loop.Draining?
        invariant DrainedOut(State()) == DrainedOut(old(State()))
        decreases |accepted| - taken
      {
        DrainedOutStep(State());
        RejectNext();
      }
      DrainedOutEnd(State());
      loop := Exited;
    }
  }

  lemma DrainedOutStep(m: Mailbox)
    requires m.taken < |m.accepted| && m.loop.Draining?
    ensures DrainedOut(m) == DrainedOut(Drained(m))
  {
  }

  lemma DrainedOutEnd(m: Mailbox)
    requires m.taken == |m.accepted| && m.loop.Draining?
    ensures DrainedOut(m) == m.(loop := Exited)
  {
  }

  lemma CommandCarried(m: Mailbox, command: RoomCommand, opts: Options, input: Input, saved: bool)
    requires EngineOk(m.room.engine) && InputOk(input)
    ensures var h := Execute(m.room, command, opts, input);
            CarriedCommand(m, command, opts, input, saved)
            == m.(record := Synced(h.room, m.record, opts, input.now, saved), room := Counted(h.room, opts),
                  loop := Answering(h.error, if h.room.destroyed then DrainRest else GoOn), executed := m.taken,
                  watched := m.watched || command.TakeRoomSnapshot?)
  {
    hide EngineOk, InputOk, Execute, Synced, Counted;
  }

  lemma CountedRevision(r: RoomState, opts: Options, input: Input)
    requires EngineOk(r.engine) && InputOk(input)
    ensures EngineOk(Counted(r, opts).engine)
    ensures Execute(Counted(r, opts), Stop, opts, input).room
         == Execute(r, Stop, opts, input).room.(revision := Counted(r, opts).revision)
    ensures !Execute(r, Stop, opts, input).room.destroyed <==> !r.destroyed
  {
    hide EngineOk, InputOk;
  }

  /** The mailbox once everything in it has been turned away. */
  function DrainedOut(m: Mailbox): (out: Mailbox)
    requires m.taken <= |m.accepted|
    decreases if m.loop.Draining? then 1 else 0, |m.accepted| - m.taken
  {
    if m.loop.Draining? then DrainedOut(Drained(m)) else m
  }

  function Rejections(jobs: seq<Job>, from: nat): seq<Mailboxes.Answer> {
    if jobs == [] then [] else Mailboxes.Reply(jobs[0], from, TurnedAway(jobs[0])) + Rejections(jobs[1..], from + 1)
  }

  /** Draining ends with an empty mailbox, and every waiting job in it is turned away, in order. */
  lemma {:induction false} DrainedOutAnswersAll(m: Mailbox)
    requires m.taken <= |m.accepted| && m.loop.Draining?
    ensures var out := DrainedOut(m);
            && out.loop.Exited? && out.taken == |m.accepted| && out.accepted == m.accepted
            && out.answers == m.answers + Rejections(Queue(m), m.taken)
    decreases |m.accepted| - m.taken
  {
    if Queue(m) != [] {
      DrainedOutAnswersAll(Drained(m));
      assert Queue(m)[1..] == Queue(Drained(m));
    }
  }
}
