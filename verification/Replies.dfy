/** What callers hear: every reply is what came of carrying out that very job. */
module Replies {
  import opened Wrappers
  import opened Rooms
  import opened Mailboxes
  import opened MailboxRuns
  import opened RoomRuns

  /** What a step of the loop finds out: nothing, or what came of the job it carries out - the reply of its command, and for a
      stop whether the room could be written. */
  ghost function Found(m: Mailbox, step: Step, opts: Options): seq<Option<RoomError>>
    requires Sane(m) && Enabled(m, step)
  {
    if step.Advance? && m.loop.Busy? then
      var command := m.accepted[m.taken - 1].command;
      [if command.Stop? then (if opts.hasSnapshots && !step.saved then Some(StoreFailed) else None)
       else Execute(m.room, command, opts, step.input).error]
    else []
  }

  /** What came of the jobs carried out in a run, one after the other. */
  ghost function AllFound(m: Mailbox, steps: seq<Step>, opts: Options): seq<Option<RoomError>>
    requires Sane(m) && CanRun(m, steps, opts)
    decreases |steps|
  {
    if steps == [] then []
    else Found(m, steps[0], opts) + AllFound(Performed(m, steps[0], opts), steps[1..], opts)
  }

  /** Jobs are carried out in the order in which they were accepted; every reply to one of them, and the reply that is being
      given, is what came of it. */
  ghost predicate Truthful(m: Mailbox, found: seq<Option<RoomError>>) {
    && |found| == m.executed
    && (forall k :: 0 <= k < |m.answers| && m.answers[k].job < |found| ==> m.answers[k].error == found[m.answers[k].job])
    && (m.loop.Answering? ==> |found| > 0 && m.loop.error == found[|found| - 1])
  }

  lemma StepTells(m: Mailbox, step: Step, opts: Options, found: seq<Option<RoomError>>)
    requires Sane(m) && Enabled(m, step) && Truthful(m, found)
    ensures Truthful(Performed(m, step, opts), found + Found(m, step, opts))
  {
    hide EngineOk, InputOk, AnswersOk, NothingBehindStop, LoopOk, Execute, Synced, Rooms.CancelTurn, Counted;
    if step.Advance? && m.loop.Busy? {
      CarriedTells(m, opts, step.input, step.saved);
      OldAnswers(m);
      hide Carried;
    } else {
      assert found + [] == found;
    }
  }

  lemma OldAnswers(m: Mailbox)
    requires Sane(m) && m.loop.Busy?
    ensures forall k :: 0 <= k < |m.answers| ==> m.answers[k].job < m.executed
  {
    RepliesInOrder(m);
    hide EngineOk, AnswersOk, NothingBehindStop;
  }

  lemma CarriedTells(m: Mailbox, opts: Options, input: Input, saved: bool)
    requires 0 < m.taken <= |m.accepted| && EngineOk(m.room.engine) && InputOk(input)
    ensures var c, command := Carried(m, opts, input, saved), m.accepted[m.taken - 1].command;
            && c.answers == m.answers && c.executed == m.taken && c.loop.Answering?
            && c.loop.error == if command.Stop? then (if opts.hasSnapshots && !saved then Some(StoreFailed) else None)
                               else Execute(m.room, command, opts, input).error
  {
    hide EngineOk, InputOk, Execute, Synced, Counted;
  }

  /** In every run, in whatever order submitters, timers and loop take their steps: each reply to a job that was carried out
      is what came of carrying out that job. */
  lemma {:induction false} RepliesTell(m: Mailbox, steps: seq<Step>, opts: Options, found: seq<Option<RoomError>>)
    requires Sane(m) && CanRun(m, steps, opts) && Truthful(m, found)
    ensures Truthful(After(m, steps, opts), found + AllFound(m, steps, opts))
    decreases |steps|
  {
    hide Sane, Performed, Found, Truthful, Enabled;
    if steps == [] {
      assert found + [] == found;
    } else {
      var first := Found(m, steps[0], opts);
      var rest := AllFound(Performed(m, steps[0], opts), steps[1..], opts);
      StepTells(m, steps[0], opts, found);
      RepliesTell(Performed(m, steps[0], opts), steps[1..], opts, found + first);
      assert found + first + rest == found + (first + rest);
    }
  }

  /** So from the beginning of a life on: the reply to the k-th accepted job, if it was carried out, is what came of it. */
  lemma EveryReplyTells(room: RoomState, record: Option<RoomSnapshots.RoomSnapshot>, watched: bool, steps: seq<Step>, opts: Options,
                        k: nat)
    requires Sane(Begin(room, record, watched)) && CanRun(Begin(room, record, watched), steps, opts)
    requires k < |After(Begin(room, record, watched), steps, opts).answers|
    ensures var e := After(Begin(room, record, watched), steps, opts);
            var found := AllFound(Begin(room, record, watched), steps, opts);
            && |found| == e.executed
            && e.answers[k].error == if e.answers[k].job < |found| then found[e.answers[k].job]
                                     else if e.answers[k].job < |e.accepted| && e.accepted[e.answers[k].job].command.Stop? then None
                                     else Some(RoomClosed)
  {
    var m := Begin(room, record, watched);
    RepliesTell(m, steps, opts, []);
    var e := After(m, steps, opts);
    assert [] + AllFound(m, steps, opts) == AllFound(m, steps, opts);
    RepliesInOrder(e);
    hide Execute, Performed, CanRun, AllFound, After, EngineOk, Jobs, Expecting, NothingBehindStop;
  }

  /** A job is let in exactly while the room is not closing, the loop has not left and fewer than 64 jobs wait; it goes to
      the end of the queue, and a stop closes the room behind it. */
  lemma SubmitMeans(m: Mailbox, job: Job, opts: Options)
    requires Sane(m) && Enabled(m, Submit(job))
    ensures var m' := Performed(m, Submit(job), opts);
            if !m.room.closing && !m.loop.Exited? && |m.accepted| - m.taken < 64 then
              m'.accepted == m.accepted + [job] && m'.taken == m.taken && m'.answers == m.answers
              && m'.room == m.room.(closing := job.command.Stop? || m.room.closing)
            else m' == m
  {
    hide EngineOk, AnswersOk, NothingBehindStop;
  }

  /** A timer that fires is armed no longer. Its event goes to the end of the queue; a full mailbox drops it, and a closing
      or abandoned one lets it come too late. */
  lemma FireMeans(m: Mailbox, event: TimerEvent, opts: Options)
    requires Sane(m) && Enabled(m, Fire(event))
    ensures var m' := Performed(m, Fire(event), opts);
            && m'.room == m.room.(armed := m.room.armed - {event}) && m'.taken == m.taken && m'.answers == m.answers
            && if m.room.closing || m.loop.Exited? then m'.accepted == m.accepted && m'.late == m.late + {event} && m'.dropped == m.dropped
               else if |m.accepted| - m.taken >= 64 then
                 m'.accepted == m.accepted && m'.dropped == m.dropped + {event} && m'.late == m.late
               else m'.accepted == m.accepted + [Job(Timer(event), false)] && m'.dropped == m.dropped && m'.late == m.late
  {
    hide EngineOk, AnswersOk, NothingBehindStop;
  }
}
