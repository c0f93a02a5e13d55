/** What the snapshot store holds after each command, and what a room gets back of its turn. */
module Saves {
  import opened Wrappers
  import opened Rules
  import opened Rooms
  import opened RoomInvariant
  import opened RoomIdentity
  import opened RoomSnapshots
  import opened Mailboxes
  import opened MailboxRuns
  import opened RoomRuns
  import opened Seats

  /** The room that is written: as the command left it, but for a stop as it found it. */
  ghost function WrittenRoom(m: Mailbox, opts: Options, input: Input): RoomState
    requires 0 < m.taken <= |m.accepted| && EngineOk(m.room.engine) && InputOk(input)
  {
    var command := m.accepted[m.taken - 1].command;
    if command.Stop? then m.room else Execute(m.room, command, opts, input).room
  }

  /** The record is of this room at this moment, under the next revision; whenever it is restored, the room is back. */
  ghost predicate Recorded(r: RoomState, s: RoomSnapshot, revision: nat, at: int, opts: Options) {
    && s.revision == revision && s.updatedAt == at && s.schemaVersion == 1
    && s.turnDeadline == SavedInstant(r.turnDeadline)
    && forall now: int ::
         var back := RestoreRoom(r.id, s, opts, now);
         back.Ok? && SameAfterRestart(r, back.value)
  }

  /** After every command the store holds what it held, if nothing could be written; nothing, if the room is over; and
      otherwise the room as it is. */
  lemma SavedIsCurrent(m: Mailbox, opts: Options, input: Input, saved: bool)
    requires MailboxInv(m) && Sane(m) && m.loop.Busy? && InputOk(input) && !m.room.destroyed
    ensures 0 < m.taken <= |m.accepted|
    ensures var c, r := Carried(m, opts, input, saved), WrittenRoom(m, opts, input);
            if !opts.hasSnapshots || !saved then c.record == m.record
            else if r.destroyed || r.phase == RoomSettled then c.record == None
            else c.record.Some? && Recorded(r, c.record.value, m.room.revision + 1, input.now, opts)
  {
    RoomOf(m);
    var command := m.accepted[m.taken - 1].command;
    assert CommandOk(command) by { hide EngineOk, RoomInv, TimersOk, RecordOk, EventsApart, QueueInv; }
    WrittenInv(m, command, opts, input);
    CarriedRecord(m, opts, input, saved);
    hide MailboxInv, Sane, EngineOk, RoomInv, Execute, Carried, InputOk, BuildSnapshot;
    var r := WrittenRoom(m, opts, input);
    if opts.hasSnapshots && saved && !r.destroyed && r.phase != RoomSettled {
      BuiltTells(r, input.now, opts);
    }
  }

  lemma WrittenInv(m: Mailbox, command: RoomCommand, opts: Options, input: Input)
    requires RoomInv(m.room) && EngineOk(m.room.engine) && CommandOk(command) && InputOk(input) && !m.room.destroyed
    ensures var r' := Execute(m.room, command, opts, input).room;
            RoomInv(r') && r'.id == m.room.id && r'.revision == m.room.revision
  {
    ExecutedRoom(m.room, command, opts, input, 0);
    ExecuteIdentity(m.room, command, opts, input);
    hide RoomInv, EngineOk, InputOk, Execute;
  }

  lemma CarriedRecord(m: Mailbox, opts: Options, input: Input, saved: bool)
    requires 0 < m.taken <= |m.accepted| && EngineOk(m.room.engine) && InputOk(input)
    ensures EngineOk(WrittenRoom(m, opts, input).engine)
    ensures Carried(m, opts, input, saved).record == Synced(WrittenRoom(m, opts, input), m.record, opts, input.now, saved)
  {
    hide EngineOk, InputOk, Execute, Synced, Counted;
  }

  lemma BuiltTells(r: RoomState, at: int, opts: Options)
    requires RoomInv(r) && EngineOk(r.engine) && !r.destroyed && r.phase != RoomSettled && at != ZERO_TIME
    ensures Recorded(r, BuildSnapshot(r, at), r.revision + 1, at, opts)
  {
    var s := BuildSnapshot(r, at);
    assert s.revision == r.revision + 1 && s.updatedAt == at && s.schemaVersion == 1 && s.turnDeadline == SavedInstant(r.turnDeadline)
      by { hide EngineOk, RoomInv; }
    hide RoomInv, EngineOk, BuildSnapshot, RestoreRoom, SameAfterRestart;
    forall now: int ensures RestoreRoom(r.id, s, opts, now).Ok? && SameAfterRestart(r, RestoreRoom(r.id, s, opts, now).value) {
      SavedRoomRestores(r, at, opts, now);
    }
  }

  // ----- Revisions -----

  /** No record below this revision, and none ahead of the room. */
  ghost predicate Revised(m: Mailbox, floor: nat) {
    && floor <= m.room.revision && (m.record.Some? ==> floor <= m.record.value.revision <= m.room.revision)
  }

  /** Carrying out a job writes nothing, deletes the record, or replaces it by a newer one. */
  lemma CarriedRevision(m: Mailbox, opts: Options, input: Input, saved: bool, floor: nat)
    requires MailboxInv(m) && Sane(m) && m.loop.Busy? && InputOk(input) && !m.room.destroyed && Revised(m, floor)
    ensures var c := Carried(m, opts, input, saved);
            && Revised(c, floor)
            && (c.record == m.record || c.record == None
                || (c.record.Some? && (m.record.Some? ==> c.record.value.revision > m.record.value.revision)))
  {
    RoomOf(m);
    var command := m.accepted[m.taken - 1].command;
    ExecuteIdentity(m.room, command, opts, input);
    CarriedRecord(m, opts, input, saved);
    CarriedRoom(m, opts, input, saved);
    hide MailboxInv, Sane, EngineOk, RoomInv, Execute, Carried, InputOk;
  }

  lemma CarriedRoom(m: Mailbox, opts: Options, input: Input, saved: bool)
    requires 0 < m.taken <= |m.accepted| && EngineOk(m.room.engine) && InputOk(input)
    ensures var r := WrittenRoom(m, opts, input);
            Carried(m, opts, input, saved).room.revision == r.revision + if opts.hasSnapshots && !r.destroyed && r.phase != RoomSettled then 1 else 0
  {
    hide EngineOk, InputOk, Execute, Synced;
  }

  lemma StepRevision(m: Mailbox, step: Step, opts: Options, floor: nat)
    requires MailboxInv(m) && Sane(m) && Enabled(m, step) && Revised(m, floor)
    ensures Revised(Performed(m, step, opts), floor)
  {
    hide EngineOk, InputOk, RoomInv, AnswersOk, NothingBehindStop, TimersOk, RecordOk, EventsApart, Carried;
    if step.Advance? && m.loop.Busy? {
      assert !m.room.destroyed;
      CarriedRevision(m, opts, step.input, step.saved, floor);
    }
  }

  /** Over every run, with any number of crashes: the store never falls behind a revision it has held. */
  lemma {:induction false} RevisionsNeverFall(m: Mailbox, events: seq<Event>, opts: Options, floor: nat)
    requires MailboxInv(m) && OptionsOk(opts) && CanLive(m, events, opts) && Revised(m, floor)
    ensures Revised(Lived(m, events, opts), floor)
    decreases |events|
  {
    hide MailboxInv, OptionsOk, Happen, Revised;
    if events != [] {
      HappenRevised(m, events[0], opts, floor);
      RevisionsNeverFall(Happen(m, events[0], opts), events[1..], opts, floor);
    }
  }

  lemma HappenRevised(m: Mailbox, event: Event, opts: Options, floor: nat)
    requires MailboxInv(m) && OptionsOk(opts) && Possible(m, event, opts) && Revised(m, floor)
    ensures Revised(Happen(m, event, opts), floor)
  {
    InvSane(m);
    match event
    case Do(step) =>
      hide MailboxInv, Sane, OptionsOk;
      StepRevision(m, step, opts, floor);
    case Crash(at) =>
      hide MailboxInv, Sane, OptionsOk, RestoreRoom;
      RestoredRevision(m, at, opts);
  }

  lemma RestoredRevision(m: Mailbox, now: int, opts: Options)
    requires MailboxInv(m) && OptionsOk(opts) && m.record.Some?
    ensures var back := Happen(m, Crash(now), opts); back.record == m.record && back.room.revision == m.record.value.revision
  {
    RestartBegins(m, opts, now);
    RestoredFrom(m.room.id, m.record.value, opts, now);
    hide MailboxInv, RestoreRoom;
  }

  lemma RestoredFrom(recordID: string, s: RoomSnapshot, opts: Options, now: int)
    requires RestoreRoom(recordID, s, opts, now).Ok?
    ensures RestoreRoom(recordID, s, opts, now).value.revision == s.revision
  {
    hide ValidRoomSnapshot, Snapshots.Restore, RestoreMembers;
  }

  /** A restored round goes on with what was left of the turn, but never with less than a managed turn's delay. */
  lemma RestoredClock(recordID: string, s: RoomSnapshot, opts: Options, now: int)
    requires OptionsOk(opts) && RestoreRoom(recordID, s, opts, now).Ok? && s.phase == RoomPlaying
    ensures var r := RestoreRoom(recordID, s, opts, now).value;
            && r.turnTimer == Some(TurnEvent(AutoPlayTurn, r.turnToken)) && r.armed == {TurnEvent(AutoPlayTurn, r.turnToken)}
            && r.turnDeadline >= now + opts.managedDelay
            && (s.turnDeadline.Some? && s.turnDeadline.value >= now + opts.managedDelay ==> r.turnDeadline == s.turnDeadline.value)
            && (s.turnDeadline.None? || s.turnDeadline.value < now + opts.managedDelay ==> r.turnDeadline == now + opts.managedDelay)
  {
    hide ValidFrame, ValidMembers, ValidIdle, Snapshots.Restore, RestoreMembers;
  }
}
