/** The mailbox around a room: many submitters and timers, one loop. Every interleaving of the steps below is a run. */
module Mailboxes {
  import opened Wrappers
  import opened Rooms
  import opened RoomSnapshots

  const MAILBOX_SIZE: nat := 64

  /** `done` tells whether a caller waits for the reply. */
  datatype Job = Job(command: RoomCommand, done: bool)

  /** A reply, by the position of its job among all accepted ones. */
  datatype Answer = Answer(job: nat, error: Option<RoomError>)

  datatype Next = GoOn | DrainRest | Leave

  datatype Loop = Idle | Busy | Answering(error: Option<RoomError>, next: Next) | Draining | Exited

  /** `accepted` is everything ever put into the mailbox and `taken` how much of it has been taken out again;
      `executed` counts the jobs the loop carried out rather than turned away; `record` is what the snapshot store
      holds; `dropped` are the timer events that found the mailbox full and `late` those that found it closing. */
  datatype Mailbox = Mailbox(
    room: RoomState,
    accepted: seq<Job>,
    taken: nat,
    executed: nat,
    answers: seq<Answer>,
    loop: Loop,
    dropped: set<TimerEvent>,
    late: set<TimerEvent>,
    record: Option<RoomSnapshot>,
    watched: bool,
    stopped: bool)

  datatype Step = Submit(job: Job) | Fire(event: TimerEvent) | Advance(input: Input, saved: bool)

  function Queue(m: Mailbox): seq<Job>
    requires m.taken <= |m.accepted|
  {
    m.accepted[m.taken..]
  }

  predicate Accepts(m: Mailbox)
    requires m.taken <= |m.accepted|
  {
    !m.room.closing && !m.loop.Exited? && |Queue(m)| < MAILBOX_SIZE
  }

  /** Into the queue; behind a stop nothing is accepted any more. */
  function Put(m: Mailbox, job: Job): Mailbox {
    m.(accepted := m.accepted + [job], room := if job.command.Stop? then m.room.(closing := true) else m.room)
  }

  function Submitted(m: Mailbox, job: Job): Mailbox
    requires m.taken <= |m.accepted|
  {
    if Accepts(m) then Put(m, job) else m
  }

  function Fired(m: Mailbox, event: TimerEvent): Mailbox
    requires m.taken <= |m.accepted|
  {
    var fired := m.(room := m.room.(armed := m.room.armed - {event}));
    if Accepts(fired) then Put(fired, Job(Timer(event), false))
    else if m.room.closing || m.loop.Exited? then fired.(late := m.late + {event})
    else fired.(dropped := m.dropped + {event})
  }

  /** The store after a synchronisation that succeeds: the room as it is, or nothing for one that is over. */
  ghost function Synced(r: RoomState, record: Option<RoomSnapshot>, opts: Options, now: int, saved: bool): Option<RoomSnapshot>
    requires EngineOk(r.engine)
  {
    if !opts.hasSnapshots || !saved then record
    else if r.destroyed || r.phase == RoomSettled then None
    else Some(BuildSnapshot(r, now))
  }

  function Counted(r: RoomState, opts: Options): RoomState {
    if !opts.hasSnapshots || r.destroyed || r.phase == RoomSettled then r else r.(revision := r.revision + 1)
  }

  /** A stop: the room is written first, then its timers are stopped. */
  ghost function CarriedStop(m: Mailbox, opts: Options, input: Input, saved: bool): Mailbox
    requires EngineOk(m.room.engine) && InputOk(input)
  {
    m.(record := Synced(m.room, m.record, opts, input.now, saved),
    room := Execute(m.room, Stop, opts, input).room.(revision := Counted(m.room, opts).revision),
    loop := Answering(if opts.hasSnapshots && !saved then Some(StoreFailed) else None, Leave),
    executed := m.taken, stopped := true)
  }

  /** Any other command: carried out, then the room is written. */
  ghost function CarriedCommand(m: Mailbox, command: RoomCommand, opts: Options, input: Input, saved: bool): Mailbox
    requires EngineOk(m.room.engine) && InputOk(input)
  {
    var h := Execute(m.room, command, opts, input);
    m.(record := Synced(h.room, m.record, opts, input.now, saved),
    room := Counted(h.room, opts),
    loop := Answering(h.error, if h.room.destroyed then DrainRest else GoOn),
    executed := m.taken, watched := m.watched || command.TakeRoomSnapshot?)
  }

  /** The loop carries out the job it has taken. */
  ghost function Carried(m: Mailbox, opts: Options, input: Input, saved: bool): Mailbox
    requires 0 < m.taken <= |m.accepted| && EngineOk(m.room.engine) && InputOk(input)
  {
    var command := m.accepted[m.taken - 1].command;
    if command.Stop? then CarriedStop(m, opts, input, saved) else CarriedCommand(m, command, opts, input, saved)
  }

  function Reply(job: Job, index: nat, error: Option<RoomError>): seq<Answer> {
    if job.done then [Answer(index, error)] else []
  }

  function Replied(m: Mailbox): Mailbox
    requires 0 < m.taken <= |m.accepted| && m.loop.Answering?
  {
    m.(answers := m.answers + Reply(m.accepted[m.taken - 1], m.taken - 1, m.loop.error),
    loop := match m.loop.next case GoOn => Idle case DrainRest => Draining case Leave => Exited)
  }

  /** What a job that is turned away hears: a stop has got what it wanted, anybody else learns that the room is gone. */
  function TurnedAway(job: Job): Option<RoomError> {
    if job.command.Stop? then None else Some(RoomClosed)
  }

  function Drained(m: Mailbox): Mailbox
    requires m.taken <= |m.accepted|
  {
    if Queue(m) == [] then m.(loop := Exited)
    else
      var job := m.accepted[m.taken];
      m.(taken := m.taken + 1, answers := m.answers + Reply(job, m.taken, TurnedAway(job)))
  }

  predicate CanAdvance(m: Mailbox)
    requires m.taken <= |m.accepted|
  {
    !m.loop.Exited? && (m.loop.Idle? ==> Queue(m) != [])
  }

  /** The loop's next step; there is only one. */
  ghost function Advanced(m: Mailbox, opts: Options, input: Input, saved: bool): Mailbox
    requires m.taken <= |m.accepted| && CanAdvance(m) && (m.loop.Busy? || m.loop.Answering? ==> m.taken > 0)
    requires EngineOk(m.room.engine) && InputOk(input)
  {
    match m.loop
    case Idle => m.(taken := m.taken + 1, loop := Busy)
    case Busy => Carried(m, opts, input, saved)
    case Answering(_, _) => Replied(m)
    case Draining => Drained(m)
  }

  // ----- The queue -----

  /** The jobs among the first `n` that somebody waits for. */
  function Expecting(accepted: seq<Job>, n: nat): seq<nat>
    requires n <= |accepted|
  {
    if n == 0 then [] else Expecting(accepted, n - 1) + if accepted[n - 1].done then [n - 1] else []
  }

  function Jobs(answers: seq<Answer>): seq<nat> {
    seq(|answers|, k requires 0 <= k < |answers| => answers[k].job)
  }

  /** How many jobs have been dealt with, answer included. */
  function Settledness(m: Mailbox): int {
    if m.loop.Busy? || m.loop.Answering? then m.taken - 1 else m.taken
  }

  ghost predicate NothingBehindStop(accepted: seq<Job>, closing: bool) {
    forall i :: 0 <= i < |accepted| && accepted[i].command.Stop? ==> i == |accepted| - 1 && closing
  }

  ghost predicate LoopOk(loop: Loop, destroyed: bool, closing: bool, stopped: bool) {
    && (destroyed ==> closing && (loop.Draining? || loop.Exited? || (loop.Answering? && loop.next == DrainRest)))
    && (stopped ==> closing && (loop.Exited? || (loop.Answering? && loop.next == Leave)))
    && (loop.Exited? ==> closing)
    && (loop.Draining? ==> destroyed)
    && (loop.Answering? ==> (loop.next == DrainRest <==> destroyed) && (loop.next == Leave <==> stopped))
  }

  ghost predicate CountsOk(m: Mailbox) {
    && m.executed <= m.taken <= |m.accepted| <= m.taken + MAILBOX_SIZE
    && (m.loop.Busy? ==> m.executed == m.taken - 1)
    && (m.loop.Idle? ==> m.executed == m.taken)
    && (m.loop.Answering? ==> m.executed == m.taken > 0)
    && (m.loop.Exited? || m.stopped ==> m.taken == |m.accepted|)
  }

  ghost predicate AnswersOk(m: Mailbox)
    requires CountsOk(m)
  {
    && Jobs(m.answers) == Expecting(m.accepted, Settledness(m))
    && forall k :: 0 <= k < |m.answers| && m.answers[k].job >= m.executed ==>
                     m.answers[k].job < |m.accepted|
                     && m.answers[k].error == TurnedAway(m.accepted[m.answers[k].job])
  }

  /** Replies are in acceptance order, each job that is waited for exactly once; nothing is behind a stop; the loop leaves
      only an empty and closed mailbox. */
  ghost predicate QueueInv(m: Mailbox) {
    && CountsOk(m)
    && NothingBehindStop(m.accepted, m.room.closing)
    && LoopOk(m.loop, m.room.destroyed, m.room.closing, m.stopped)
    && AnswersOk(m)
  }

  lemma {:induction false} ExpectingPut(accepted: seq<Job>, job: Job, n: nat)
    requires n <= |accepted|
    ensures Expecting(accepted + [job], n) == Expecting(accepted, n)
  {
    if n > 0 {
      ExpectingPut(accepted, job, n - 1);
    }
  }

  lemma PutQueue(m: Mailbox, job: Job)
    requires QueueInv(m) && Accepts(m)
    ensures QueueInv(Put(m, job))
  {
    ExpectingPut(m.accepted, job, Settledness(m));
    assert forall i :: 0 <= i < |m.accepted| ==> !m.accepted[i].command.Stop?;
    hide Expecting, Jobs;
  }

  lemma JobsAppend(answers: seq<Answer>, more: seq<Answer>)
    ensures Jobs(answers + more) == Jobs(answers) + Jobs(more)
  {
  }

  lemma FiredQueue(m: Mailbox, event: TimerEvent)
    requires QueueInv(m)
    ensures QueueInv(Fired(m, event))
  {
    var fired := m.(room := m.room.(armed := m.room.armed - {event}));
    assert QueueInv(fired) by { hide Expecting, Jobs; }
    if Accepts(fired) {
      PutQueue(fired, Job(Timer(event), false));
    } else {
      assert QueueInv(fired.(dropped := m.dropped + {event})) by { hide Expecting, Jobs; }
      assert QueueInv(fired.(late := m.late + {event})) by { hide Expecting, Jobs; }
    }
    hide QueueInv;
  }

  lemma TakenQueue(m: Mailbox)
    requires QueueInv(m) && m.loop.Idle? && Queue(m) != []
    ensures QueueInv(m.(taken := m.taken + 1, loop := Busy))
  {
    hide Expecting, Jobs;
  }

  lemma RepliedQueue(m: Mailbox)
    requires QueueInv(m) && m.loop.Answering?
    ensures QueueInv(Replied(m))
  {
    var job := m.accepted[m.taken - 1];
    var reply := Reply(job, m.taken - 1, m.loop.error);
    JobsAppend(m.answers, reply);
    assert Jobs(reply) == if job.done then [m.taken - 1] else [];
    var r := Replied(m);
    forall k | 0 <= k < |r.answers| && r.answers[k].job >= r.executed
      ensures r.answers[k].job < |r.accepted| && r.answers[k].error == TurnedAway(r.accepted[r.answers[k].job])
    {
      assert k < |m.answers| && r.answers[k] == m.answers[k];
    }
    hide Jobs;
  }

  lemma DrainedQueue(m: Mailbox)
    requires QueueInv(m) && m.loop.Draining?
    ensures QueueInv(Drained(m))
  {
    if Queue(m) != [] {
      var job := m.accepted[m.taken];
      var reply := Reply(job, m.taken, TurnedAway(job));
      JobsAppend(m.answers, reply);
      assert Jobs(reply) == if job.done then [m.taken] else [];
      var d := Drained(m);
      forall k | 0 <= k < |d.answers| && d.answers[k].job >= d.executed
        ensures d.answers[k].job < |d.accepted| && d.answers[k].error == TurnedAway(d.accepted[d.answers[k].job])
      {
        assert k < |m.answers| ==> d.answers[k] == m.answers[k];
      }
    }
    hide Jobs;
  }

  /** What an executed command may do to the flags. */
  ghost predicate ClosesWithDestroy(r: RoomState, r': RoomState) {
    (r'.destroyed ==> r'.closing) && (!r'.destroyed ==> r'.closing == r.closing)
  }

  /** What carrying a job out does to the queue: nothing but to note that it was done, and what comes next. */
  ghost predicate OnlyCarried(m: Mailbox, c: Mailbox) {
    && c.accepted == m.accepted && c.taken == m.taken && c.answers == m.answers && c.executed == m.taken
    && c.loop.Answering?
    && if m.taken > 0 && m.taken <= |m.accepted| && m.accepted[m.taken - 1].command.Stop? then
         c.stopped && c.loop.next == Leave && c.room.closing == m.room.closing && c.room.destroyed == m.room.destroyed
       else
         c.stopped == m.stopped && ClosesWithDestroy(m.room, c.room) && c.loop.next == (if c.room.destroyed then DrainRest else GoOn)
  }

  lemma CarriedOnly(m: Mailbox, opts: Options, input: Input, saved: bool)
    requires 0 < m.taken <= |m.accepted| && EngineOk(m.room.engine) && InputOk(input)
    requires ClosesWithDestroy(m.room, Execute(m.room, m.accepted[m.taken - 1].command, opts, input).room)
    ensures OnlyCarried(m, Carried(m, opts, input, saved))
  {
    hide EngineOk, InputOk, Synced, HandleMessage, HandleDisconnect, TryReconnect, TryJoin, HandleTurnEvent, HandleEmptyEvent,
         ScheduleEmpty;
    if m.accepted[m.taken - 1].command.Stop? {
      assert Execute(m.room, Stop, opts, input).room == CancelEmpty(CancelTurn(m.room));
    } else {
      hide Execute;
    }
  }

  lemma CarriedQueue(m: Mailbox, opts: Options, input: Input, saved: bool)
    requires QueueInv(m) && m.loop.Busy? && EngineOk(m.room.engine) && InputOk(input)
    requires ClosesWithDestroy(m.room, Execute(m.room, m.accepted[m.taken - 1].command, opts, input).room)
    ensures QueueInv(Carried(m, opts, input, saved))
  {
    hide EngineOk, InputOk, Execute, Carried, Expecting, Jobs;
    CarriedOnly(m, opts, input, saved);
    CarriedLoop(m, Carried(m, opts, input, saved));
    CarriedAnswers(m, Carried(m, opts, input, saved));
  }

  lemma CarriedLoop(m: Mailbox, c: Mailbox)
    requires QueueInv(m) && m.loop.Busy? && OnlyCarried(m, c)
    ensures CountsOk(c) && LoopOk(c.loop, c.room.destroyed, c.room.closing, c.stopped)
    ensures NothingBehindStop(c.accepted, c.room.closing)
  {
    assert !m.room.destroyed && !m.stopped;
    assert m.accepted[m.taken - 1].command.Stop? ==> m.taken == |m.accepted| && m.room.closing;
    assert m.room.closing ==> c.room.closing;
    hide AnswersOk;
  }

  lemma CarriedAnswers(m: Mailbox, c: Mailbox)
    requires QueueInv(m) && m.loop.Busy? && OnlyCarried(m, c) && CountsOk(c)
    ensures AnswersOk(c)
  {
    hide Expecting, Jobs;
    forall k | 0 <= k < |c.answers| && c.answers[k].job >= c.executed
      ensures c.answers[k].job < |c.accepted| && c.answers[k].error == TurnedAway(c.accepted[c.answers[k].job])
    {
      assert m.answers[k].job >= m.executed;
      assert Jobs(m.answers)[k] == m.answers[k].job by { JobAt(m.answers, k); }
      ExpectingBelow(m.accepted, m.taken - 1, k);
    }
  }

  lemma JobAt(answers: seq<Answer>, k: nat)
    requires k < |answers|
    ensures |Jobs(answers)| == |answers| && Jobs(answers)[k] == answers[k].job
  {
  }

  lemma {:induction false} ExpectingBelow(accepted: seq<Job>, n: nat, k: nat)
    requires n <= |accepted| && k < |Expecting(accepted, n)|
    ensures Expecting(accepted, n)[k] < n && accepted[Expecting(accepted, n)[k]].done
  {
    if k < |Expecting(accepted, n - 1)| {
      ExpectingBelow(accepted, n - 1, k);
    }
  }

  /** The list of expected replies: the jobs somebody waits for, in order, each once. */
  lemma {:induction false} ExpectingExactly(accepted: seq<Job>, n: nat)
    requires n <= |accepted|
    ensures var list := Expecting(accepted, n);
            && (forall i :: 0 <= i < n && accepted[i].done ==> i in list)
            && (forall i :: i in list ==> i < n && accepted[i].done)
            && (forall j, k :: 0 <= j < k < |list| ==> list[j] < list[k])
  {
    if n > 0 {
      var front := Expecting(accepted, n - 1);
      ExpectingExactly(accepted, n - 1);
      assert forall j :: 0 <= j < |front| ==> front[j] in front;
    }
  }
}
