/** The collection of rooms that nobody is connected to. */
module RoomCollection {
  import opened Wrappers
  import opened Rules
  import opened Invariant
  import opened Setup
  import opened Rooms

  /** A collection timer runs only while nobody is connected, its event is on its way, and it is the only current one;
      in a watched room it runs whenever nobody is connected. */
  ghost predicate EmptyInv(r: RoomState, events: set<TimerEvent>, watched: bool) {
    && (forall e :: e in events && e.EmptyEvent? ==>
                      e.token <= r.emptyToken && (e.token == r.emptyToken ==> r.emptyTimer.Some?))
    && (r.emptyTimer.Some? ==>
          r.emptyTimer.value == EmptyEvent(r.emptyToken) && r.emptyTimer.value in events
          && !HasConnected(r.members) && !r.destroyed)
    && (watched && !r.destroyed && !HasConnected(r.members) ==> r.emptyTimer.Some?)
  }

  /** Every collection event that is armed now and was not before is `allowed`. */
  ghost predicate OnlyNewEmpty(a: set<TimerEvent>, b: set<TimerEvent>, allowed: set<TimerEvent>) {
    forall e: TimerEvent :: e.EmptyEvent? && e in b ==> e in a || e in allowed
  }

  ghost predicate EmptyKept(r: RoomState, r': RoomState) {
    && r'.emptyToken == r.emptyToken && r'.emptyTimer == r.emptyTimer && r'.destroyed == r.destroyed
    && OnlyNewEmpty(r.armed, r'.armed, {})
    && if r.emptyTimer.Some? then HasConnected(r'.members) ==> HasConnected(r.members)
       else HasConnected(r.members) ==> HasConnected(r'.members)
  }

  ghost predicate EmptyScheduled(r: RoomState, r': RoomState) {
    && r'.emptyToken == r.emptyToken && r.emptyTimer.None? && !r.destroyed && !r'.destroyed
    && r'.emptyTimer == Some(EmptyEvent(r.emptyToken)) && EmptyEvent(r.emptyToken) in r'.armed
    && OnlyNewEmpty(r.armed, r'.armed, {EmptyEvent(r.emptyToken)})
    && !HasConnected(r'.members)
  }

  ghost predicate EmptyCancelled(r: RoomState, r': RoomState) {
    && r'.emptyToken > r.emptyToken && r'.emptyTimer.None?
    && OnlyNewEmpty(r.armed, r'.armed, {})
    && (r'.destroyed || HasConnected(r'.members))
  }

  ghost predicate EmptyStep(r: RoomState, r': RoomState) {
    EmptyKept(r, r') || EmptyScheduled(r, r') || EmptyCancelled(r, r')
  }

  lemma EmptyStepKeeps(r: RoomState, r': RoomState, before: set<TimerEvent>, after: set<TimerEvent>, watched: bool)
    requires EmptyInv(r, before, watched) && EmptyStep(r, r') && r.armed <= before
    requires r'.armed <= after <= before + r'.armed
    requires EmptyKept(r, r') && r.emptyTimer.Some? ==> EmptyEvent(r.emptyToken) in after
    ensures EmptyInv(r', after, watched)
  {
    hide HasConnected;
  }

  // ----- Links -----

  /** The same members with the same connections. */
  ghost predicate SameLinks(a: seq<Member>, b: seq<Member>) {
    |a| == |b| && forall i :: 0 <= i < |a| ==> a[i].connected == b[i].connected && a[i].session == b[i].session
  }

  lemma SameLinksConnected(a: seq<Member>, b: seq<Member>)
    requires SameLinks(a, b)
    ensures HasConnected(a) == HasConnected(b)
  {
    if HasConnected(a) {
      var i :| 0 <= i < |a| && a[i].connected && a[i].session.Some?;
      assert b[i].connected && b[i].session.Some?;
    }
    if HasConnected(b) {
      var i :| 0 <= i < |b| && b[i].connected && b[i].session.Some?;
      assert a[i].connected && a[i].session.Some?;
    }
  }

  /** Nothing that concerns collection. */
  ghost predicate SameEmptiness(r: RoomState, r': RoomState) {
    && r'.emptyToken == r.emptyToken && r'.emptyTimer == r.emptyTimer && r'.destroyed == r.destroyed
    && OnlyNewEmpty(r.armed, r'.armed, {})
    && SameLinks(r.members, r'.members)
  }

  lemma SameEmptinessStep(r: RoomState, r': RoomState)
    requires SameEmptiness(r, r')
    ensures EmptyStep(r, r')
  {
    SameLinksConnected(r.members, r'.members);
    hide HasConnected;
  }

  lemma FewerConnected(a: seq<Member>, b: seq<Member>)
    requires forall m :: m in b ==> m in a
    ensures HasConnected(b) ==> HasConnected(a)
  {
    if HasConnected(b) {
      var i :| 0 <= i < |b| && b[i].connected && b[i].session.Some?;
      assert b[i] in a;
      var j :| 0 <= j < |a| && a[j] == b[i];
    }
  }

  lemma ConnectedAt(members: seq<Member>, i: nat)
    requires i < |members| && members[i].connected && members[i].session.Some?
    ensures HasConnected(members)
  {
  }

  /** Watching a change after which fewer are connected. */
  lemma ScheduleEmptyStep(r: RoomState, left: RoomState, opts: Options)
    requires left.emptyToken == r.emptyToken && left.emptyTimer == r.emptyTimer && left.destroyed == r.destroyed && !r.destroyed
    requires left.armed == r.armed && OptionsOk(opts)
    requires HasConnected(left.members) ==> HasConnected(r.members)
    ensures EmptyStep(r, ScheduleEmpty(left, opts))
  {
    hide HasConnected;
  }

  lemma TurnOnly(r: RoomState, r1: RoomState, r2: RoomState)
    requires EmptyStep(r, r1) && SameEmptiness(r1, r2) && r1.armed <= r2.armed
    ensures EmptyStep(r, r2)
  {
    SameLinksConnected(r1.members, r2.members);
    hide HasConnected, SameLinks;
  }

  lemma ScheduleTurnEmptiness(r: RoomState, opts: Options, now: int)
    requires EngineOk(r.engine)
    ensures SameEmptiness(r, ScheduleTurn(r, opts, now)) && r.armed <= ScheduleTurn(r, opts, now).armed
  {
    hide EngineOk, Actor;
  }

  // ----- The commands -----

  lemma RemoveAtMembers(members: seq<Member>, i: nat)
    requires i < |members|
    ensures forall m :: m in RemoveAt(members, i) ==> m in members
  {
  }

  lemma RemoveMemberEmpty(r: RoomState, playerID: int, opts: Options)
    requires !r.destroyed && OptionsOk(opts)
    ensures EmptyStep(r, RemoveMember(r, playerID, opts))
  {
    var i := FindMember(r.members, playerID);
    if i.Some? {
      RemoveAtMembers(r.members, i.value);
      var left := r.(members := RemoveAt(r.members, i.value));
      FewerConnected(r.members, left.members);
      hide HasConnected, RemoveAt, ScheduleEmpty;
      if left.members == [] {
        assert EmptyCancelled(r, BeginDestroy(left));
      } else {
        var owned := SetMember(left, 0, left.members[0].(ready := true)).(ownerID := left.members[0].playerID);
        SameLinksConnected(left.members, owned.members);
        ScheduleEmptyStep(r, owned, opts);
        ScheduleEmptyStep(r, left, opts);
      }
      hide EmptyStep;
    } else {
      SameEmptinessStep(r, r);
      hide EmptyStep, HasConnected;
    }
  }

  lemma GoneConnected(members: seq<Member>, i: nat, m: Member)
    requires i < |members| && m.session.None?
    ensures HasConnected(members[i := m]) ==> HasConnected(members)
  {
    if HasConnected(members[i := m]) {
      var j :| 0 <= j < |members| && members[i := m][j].connected && members[i := m][j].session.Some?;
      assert members[j].connected && members[j].session.Some?;
    }
  }

  lemma VacateEmpty(r: RoomState, i: nat, abandoned: bool, opts: Options, now: int)
    requires EngineOk(r.engine) && i < |r.members| && !r.destroyed && OptionsOk(opts)
    ensures EmptyStep(r, Vacate(r, i, abandoned, opts, now))
  {
    var m := r.members[i].(session := None, connected := false, autoPlay := true, abandoned := abandoned);
    var away := SetMember(r, i, m);
    GoneConnected(r.members, i, m);
    ScheduleEmptyStep(r, away, opts);
    var watched := ScheduleEmpty(away, opts);
    assert watched.engine == r.engine;
    ScheduleTurnEmptiness(watched, opts, now);
    hide EngineOk, Actor, HasConnected, ScheduleTurn, ScheduleEmpty, EmptyStep, SameEmptiness, IsActor;
    TurnOnly(r, watched, ScheduleTurn(watched, opts, now));
  }

  lemma UntouchedEmpty(r: RoomState)
    ensures EmptyStep(r, r)
  {
    SameEmptinessStep(r, r);
  }

  lemma HandleDisconnectEmpty(r: RoomState, who: Option<Session>, opts: Options, now: int)
    requires EngineOk(r.engine) && !r.destroyed && OptionsOk(opts)
    ensures EmptyStep(r, HandleDisconnect(r, who, opts, now))
  {
    UntouchedEmpty(r);
    if who.Some? {
      var i := FindMember(r.members, who.value.playerID);
      if i.Some? && r.members[i.value].session == who {
        VacateEmpty(r, i.value, r.members[i.value].abandoned, opts, now);
        RemoveMemberEmpty(r, who.value.playerID, opts);
      }
    }
    hide EngineOk, EmptyStep, Vacate, RemoveMember;
  }

  lemma HandleLeaveEmpty(r: RoomState, s: Session, opts: Options, now: int)
    requires EngineOk(r.engine) && !r.destroyed && OptionsOk(opts)
    ensures EmptyStep(r, HandleLeave(r, s, opts, now))
  {
    UntouchedEmpty(r);
    var i := FindMember(r.members, s.playerID);
    if i.Some? {
      VacateEmpty(r, i.value, true, opts, now);
    }
    RemoveMemberEmpty(r, s.playerID, opts);
    hide EngineOk, EmptyStep, Vacate, RemoveMember;
  }

  lemma HandleKickEmpty(r: RoomState, s: Session, target: Option<int>, opts: Options)
    requires !r.destroyed && OptionsOk(opts)
    ensures EmptyStep(r, HandleKick(r, s, target, opts).room)
  {
    UntouchedEmpty(r);
    if target.Some? {
      RemoveMemberEmpty(r, target.value, opts);
    }
    hide EmptyStep, RemoveMember;
  }

  lemma TryReconnectEmpty(r: RoomState, who: Option<Session>, opts: Options, now: int)
    requires EngineOk(r.engine)
    ensures EmptyStep(r, TryReconnect(r, who, opts, now).room)
  {
    UntouchedEmpty(r);
    if who.Some? {
      var i := FindMember(r.members, who.value.playerID);
      if i.Some? && !r.members[i.value].abandoned {
        var m := r.members[i.value].(session := who, connected := true, autoPlay := false, strikes := 0);
        var back := CancelEmpty(SetMember(r, i.value, m));
        ConnectedAt(back.members, i.value);
        assert EmptyCancelled(r, back);
        assert EmptyStep(r, back);
        ScheduleTurnEmptiness(back, opts, now);
        hide EngineOk, Actor, HasConnected, ScheduleTurn, EmptyStep, SameEmptiness, IsActor, EmptyCancelled;
        TurnOnly(r, back, ScheduleTurn(back, opts, now));
      }
    }
    hide EngineOk, Actor, HasConnected, ScheduleTurn, EmptyStep, IsActor;
  }

  lemma TryJoinEmpty(r: RoomState, s: Session)
    ensures EmptyStep(r, TryJoin(r, s).room)
  {
    UntouchedEmpty(r);
    var r' := TryJoin(r, s).room;
    if r' != r {
      ConnectedAt(r'.members, |r.members|);
      assert EmptyCancelled(r, r');
    }
    hide HasConnected, FindMember;
  }

  lemma HandleReadyEmpty(r: RoomState, s: Session, ready: Option<bool>)
    ensures EmptyStep(r, HandleReady(r, s, ready).room)
  {
    assert SameEmptiness(r, HandleReady(r, s, ready).room);
    SameEmptinessStep(r, HandleReady(r, s, ready).room);
    hide HasConnected, EmptyStep, FindMember;
  }

  lemma HandleStartEmpty(r: RoomState, s: Session, opts: Options, input: Input)
    requires InputOk(input)
    ensures EmptyStep(r, HandleStart(r, s, opts, input).room)
  {
    var game := NewGame(MemberIDs(r.members), 0, input.dealing);
    NewGameInv(MemberIDs(r.members), 0, input.dealing);
    var p := PersistStart(r, opts, input).room;
    assert SameEmptiness(r, p);
    UntouchedEmpty(r);
    SameEmptinessStep(r, p);
    hide NewGame, InputOk, AllReady, PersistStart, EmptyStep, SameEmptiness, ScheduleTurn, Inv;
    if game.Ok? {
      var started := p.(engine := Some(game.value), phase := RoomPlaying);
      ScheduleTurnEmptiness(started, opts, input.now);
      StartedEmptiness(r, p, started);
      TurnOnly(r, started, ScheduleTurn(started, opts, input.now));
    }
  }

  lemma StartedEmptiness(r: RoomState, p: RoomState, started: RoomState)
    requires SameEmptiness(r, p) && started == p.(engine := started.engine, phase := started.phase)
    ensures EmptyStep(r, started)
  {
    SameEmptinessStep(r, started);
  }

  lemma SettledEmptiness(r: RoomState, opts: Options, input: Input)
    ensures SameEmptiness(r, PersistSettlement(CancelTurn(r.(phase := RoomSettled)), opts, input).room)
  {
  }

  lemma EmptinessThrough(a: RoomState, b: RoomState, c: RoomState)
    requires SameEmptiness(a, b) && SameEmptiness(b, c)
    ensures SameEmptiness(a, c)
  {
  }

  lemma ClearedEmptiness(r: RoomState, playerID: int)
    ensures SameEmptiness(r, Cleared(r, playerID))
  {
  }

  lemma FollowedEmpty(r: RoomState, turnAction: bool, opts: Options, input: Input)
    requires EngineOk(r.engine) && r.engine.Some?
    ensures SameEmptiness(r, Followed(r, turnAction, opts, input).room)
  {
    hide EngineOk, ScheduleTurn, SameEmptiness, PersistSettlement, CancelTurn;
    SameAsItself(r);
    SettledEmptiness(r, opts, input);
    ScheduleTurnEmptiness(r, opts, input.now);
  }

  lemma FinishCommandEmpty(r: RoomState, playerID: int, turnAction: bool, opts: Options, input: Input)
    requires EngineOk(r.engine) && r.engine.Some?
    ensures SameEmptiness(r, FinishCommand(r, playerID, turnAction, opts, input).room)
  {
    hide SameEmptiness, Followed;
    var back := if turnAction then Cleared(r, playerID) else r;
    SameAsItself(r);
    ClearedEmptiness(r, playerID);
    assert back.engine == r.engine;
    hide EngineOk, Cleared;
    FollowedEmpty(back, turnAction, opts, input);
    EmptinessThrough(r, back, Followed(back, turnAction, opts, input).room);
  }

  lemma HandleMoveEmpty(r: RoomState, s: Session, move: Move, opts: Options, input: Input)
    requires EngineOk(r.engine) && InputOk(input)
    ensures EmptyStep(r, HandleMove(r, s, move, opts, input).room)
  {
    hide EmptyStep, SameEmptiness, CommandOutcome, FinishCommand, Inv, InputOk, CommandOf, IsTurnAction;
    UntouchedEmpty(r);
    var command := CommandOf(s.playerID, move);
    if r.phase == RoomPlaying && r.engine.Some? && command.Some? {
      var o := CommandOutcome(r.engine.value, command.value, input);
      var moved := r.(engine := Some(o.game));
      FinishCommandEmpty(moved, s.playerID, IsTurnAction(move), opts, input);
      SameAsItself(moved);
      MovedEmptiness(r, moved, moved);
      MovedEmptiness(r, moved, FinishCommand(moved, s.playerID, IsTurnAction(move), opts, input).room);
    }
  }

  lemma SameAsItself(r: RoomState)
    ensures SameEmptiness(r, r)
  {
  }

  lemma MovedEmptiness(r: RoomState, moved: RoomState, r': RoomState)
    requires moved == r.(engine := moved.engine) && SameEmptiness(moved, r')
    ensures EmptyStep(r, r')
  {
    SameEmptinessStep(r, r');
  }

  lemma HandleMessageEmpty(r: RoomState, s: Session, message: Message, opts: Options, input: Input)
    requires EngineOk(r.engine) && InputOk(input) && !r.destroyed && OptionsOk(opts)
    ensures EmptyStep(r, HandleMessage(r, s, message, opts, input).room)
  {
    UntouchedEmpty(r);
    hide HandleReady, HandleStart, HandleLeave, HandleKick, HandleMove, InputOk, EngineOk, EmptyStep, OptionsOk, FindMember;
    match message
    case ReadyMessage(ready) => HandleReadyEmpty(r, s, ready);
    case StartMessage => HandleStartEmpty(r, s, opts, input);
    case LeaveMessage => HandleLeaveEmpty(r, s, opts, input.now);
    case KickMessage(target) => HandleKickEmpty(r, s, target, opts);
    case MoveMessage(move) => HandleMoveEmpty(r, s, move, opts, input);
    case UnknownMessage =>
  }

  lemma FinishAutomatedEmpty(r: RoomState, opts: Options, input: Input)
    requires EngineOk(r.engine) && r.engine.Some?
    ensures SameEmptiness(r, FinishAutomated(r, opts, input))
  {
    hide EngineOk, ScheduleTurn, SeatOf;
    ScheduleTurnEmptiness(r, opts, input.now);
  }

  lemma StruckLinks(r: RoomState, i: nat, g: Game, kind: TurnKind, opts: Options)
    requires i < |r.members|
    ensures SameEmptiness(r, SetMember(r.(engine := Some(g)), i, Struck(r.members[i], kind, opts)))
  {
  }

  lemma EmptinessChain(a: RoomState, b: RoomState, c: RoomState)
    requires SameEmptiness(a, b) && SameEmptiness(b, c)
    ensures EmptyStep(a, c)
  {
    SameEmptinessStep(a, c);
    hide EmptyStep;
  }

  lemma HandleTurnEventEmpty(r: RoomState, kind: TurnKind, token: nat, opts: Options, input: Input)
    requires EngineOk(r.engine) && InputOk(input)
    ensures EmptyStep(r, HandleTurnEvent(r, kind, token, opts, input))
  {
    hide Inv, AutoOutcome, EmptyStep, SameEmptiness, ScheduleTurn, FinishAutomated, Struck, InputOk, Actor;
    UntouchedEmpty(r);
    if token == r.turnToken && r.phase == RoomPlaying && r.engine.Some? && Actor(r.members, r.engine).Some? {
      var i := Actor(r.members, r.engine).value;
      var o := AutoOutcome(r.engine.value, r.members[i].playerID, input);
      var acted := SetMember(r.(engine := Some(o.game)), i, Struck(r.members[i], kind, opts));
      StruckLinks(r, i, o.game, kind, opts);
      ScheduleTurnEmptiness(acted, opts, input.now);
      FinishAutomatedEmpty(acted, opts, input);
      EmptinessChain(r, acted, ScheduleTurn(acted, opts, input.now));
      EmptinessChain(r, acted, FinishAutomated(acted, opts, input));
    }
  }

  /** A collection event of an earlier arming changes nothing; a current one ends the room unless somebody is connected. */
  lemma HandleEmptyEventEmpty(r: RoomState, token: nat)
    ensures EmptyStep(r, HandleEmptyEvent(r, token))
  {
    UntouchedEmpty(r);
    hide HasConnected;
  }

  /** Every command but the last leaves the collection timer right: running, cancelled or newly started. */
  lemma ExecuteEmpty(r: RoomState, command: RoomCommand, opts: Options, input: Input)
    requires EngineOk(r.engine) && InputOk(input) && !r.destroyed && OptionsOk(opts) && command != Stop
    ensures EmptyStep(r, Execute(r, command, opts, input).room)
  {
    hide EngineOk, EmptyStep, HandleMessage, HandleDisconnect, TryReconnect, TryJoin, HandleTurnEvent, HandleEmptyEvent,
         ScheduleEmpty, InputOk, OptionsOk;
    match command
    case FromPlayer(s, message) => HandleMessageEmpty(r, s, message, opts, input);
    case Join(s) => TryJoinEmpty(r, s);
    case Disconnect(who) => HandleDisconnectEmpty(r, who, opts, input.now);
    case Reconnect(who) => TryReconnectEmpty(r, who, opts, input.now);
    case Timer(TurnEvent(kind, token)) => HandleTurnEventEmpty(r, kind, token, opts, input);
    case Timer(EmptyEvent(token)) => HandleEmptyEventEmpty(r, token);
    case TakeRoomSnapshot => ScheduleEmptyStep(r, r, opts);
  }

  /** From the first snapshot command on, a room that nobody is connected to is being watched. */
  lemma SnapshotWatches(r: RoomState, opts: Options)
    requires OptionsOk(opts)
    ensures var r' := ScheduleEmpty(r, opts); !r'.destroyed && !HasConnected(r'.members) ==> r'.emptyTimer.Some?
  {
    hide HasConnected;
  }
}
