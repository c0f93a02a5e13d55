/** What holds of a room between any two mailbox commands. */
module RoomInvariant {
  import opened Wrappers
  import opened Cards
  import opened Piles
  import opened Rules
  import opened Invariant
  import opened Preservation
  import opened Setup
  import opened Views
  import opened Automation
  import opened Runs
  import opened Failures
  import opened Rooms

  /** The white space of Unicode. */
  predicate IsSpace(c: char) {
    var n := c as int;
    || 0x09 <= n <= 0x0D || n == 0x20 || n == 0x85 || n == 0xA0 || n == 0x1680 || 0x2000 <= n <= 0x200A
    || n == 0x2028 || n == 0x2029 || n == 0x202F || n == 0x205F || n == 0x3000
  }

  /** Nothing is left after trimming. */
  predicate Blank(s: string) { forall i :: 0 <= i < |s| ==> IsSpace(s[i]) }

  predicate SessionOk(s: Session) { s.playerID > 0 && !Blank(s.nickname) }

  predicate CommandOk(command: RoomCommand) { command.Join? ==> SessionOk(command.session) }

  predicate MemberOk(m: Member) {
    && m.playerID > 0 && !Blank(m.nickname) && m.strikes >= 0
    && (m.connected <==> m.session.Some?)
    && (m.abandoned ==> !m.connected)
  }

  ghost predicate DistinctMembers(members: seq<Member>) {
    forall i, j :: 0 <= i < j < |members| ==> members[i].playerID != members[j].playerID
  }

  ghost predicate MembersOk(members: seq<Member>, maxPlayers: int) {
    && MIN_PLAYERS <= maxPlayers <= MAX_PLAYERS_CAP && |members| <= maxPlayers
    && (forall i :: 0 <= i < |members| ==> MemberOk(members[i]))
    && DistinctMembers(members)
  }

  ghost predicate OwnerIn(members: seq<Member>, ownerID: int) {
    exists i :: 0 <= i < |members| && members[i].playerID == ownerID
  }

  ghost predicate SeatsMatch(players: seq<Player>, members: seq<Member>) {
    |players| == |members| && forall s :: 0 <= s < |players| ==> players[s].id == members[s].playerID
  }

  ghost predicate Unmanaged(members: seq<Member>) {
    forall i :: 0 <= i < |members| ==> !members[i].autoPlay && !members[i].abandoned
  }

  ghost predicate MatchOk(matchID: int, matchStartedAt: int) {
    matchID >= 0 && (matchID > 0 ==> matchStartedAt != ZERO_TIME)
  }

  /** The room and its engine never disagree about whether there is a game, or whether it is over. */
  ghost predicate PhaseOk(phase: RoomPhase, members: seq<Member>, engine: Option<Game>, matchID: int, matchStartedAt: int,
                          matchSettled: bool) {
    match phase
    case RoomWaiting => engine.None? && matchID == 0 && matchStartedAt == ZERO_TIME && Unmanaged(members)
    case RoomPlaying =>
      && engine.Some? && engine.value.phase != Finished && SeatsMatch(engine.value.players, members)
      && MatchOk(matchID, matchStartedAt) && !matchSettled
    case RoomSettled => engine.Some? && engine.value.phase == Finished && MatchOk(matchID, matchStartedAt)
    case RoomOther(_) => false
  }

  ghost predicate RoomInv(r: RoomState) {
    && !Blank(r.id)
    && MembersOk(r.members, r.maxPlayers)
    && (r.destroyed || OwnerIn(r.members, r.ownerID))
    && EngineOk(r.engine)
    && PhaseOk(r.phase, r.members, r.engine, r.matchID, r.matchStartedAt, r.matchSettled)
  }

  /** A room is playing exactly while its engine has an unfinished round, and settled exactly once it is finished. */
  lemma RoomFollowsEngine(r: RoomState)
    requires RoomInv(r)
    ensures r.phase == RoomPlaying <==> r.engine.Some? && r.engine.value.phase != Finished
    ensures r.phase == RoomSettled <==> r.engine.Some? && r.engine.value.phase == Finished
    ensures r.phase == RoomWaiting <==> r.engine.None?
  {
    hide EngineOk, MembersOk;
  }

  lemma NewRoomInv(id: string, maxPlayers: int, owner: Session)
    requires !Blank(id) && SessionOk(owner)
    ensures RoomInv(NewRoom(id, maxPlayers, owner))
  {
    assert NewRoom(id, maxPlayers, owner).members[0].playerID == owner.playerID;
  }

  // ----- Who has to act -----

  lemma SeatedMember(players: seq<Player>, members: seq<Member>, s: nat)
    requires SeatsMatch(players, members) && DistinctMembers(members) && s < |members|
    ensures FindMember(members, players[s].id) == Some(s) && SeatOf(players, members[s].playerID) == Some(s)
  {
    var i := FindMember(members, players[s].id);
    assert i.Some?;
    var t := SeatOf(players, members[s].playerID);
    assert t.Some?;
  }

  /** In a playing room the member who has to act is the one in the engine's current seat. */
  lemma ActorIsCurrent(members: seq<Member>, g: Game)
    requires Inv(g, false) && g.phase != Finished && SeatsMatch(g.players, members) && DistinctMembers(members)
    ensures 0 <= g.currentSeat < |members|
    ensures Actor(members, Some(g)) == Some(g.currentSeat as nat)
    ensures Shape(g) && ActorID(g) == members[g.currentSeat].playerID
  {
    InvShape(g, false);
    ActorSeated(g, 0);
    SeatedMember(g.players, members, 0);
    SeatedMember(g.players, members, g.currentSeat);
    hide Inv, ActorID;
  }

  // ----- Timers are no part of it -----

  /** Equal but for timers and their tokens. */
  ghost predicate SameRoom(a: RoomState, b: RoomState) {
    && a.id == b.id && a.maxPlayers == b.maxPlayers && a.ownerID == b.ownerID && a.phase == b.phase
    && a.members == b.members && a.engine == b.engine && a.matchID == b.matchID
    && a.matchStartedAt == b.matchStartedAt && a.matchSettled == b.matchSettled && a.destroyed == b.destroyed
  }

  lemma SameRoomInv(a: RoomState, b: RoomState)
    requires RoomInv(a) && SameRoom(a, b)
    ensures RoomInv(b)
  {
  }

  lemma ScheduleTurnSame(r: RoomState, opts: Options, now: int)
    requires EngineOk(r.engine)
    ensures SameRoom(r, ScheduleTurn(r, opts, now))
  {
    hide EngineOk, Actor;
  }

  lemma ScheduleTurnInv(r: RoomState, opts: Options, now: int)
    requires RoomInv(r)
    ensures RoomInv(ScheduleTurn(r, opts, now))
  {
    ScheduleTurnSame(r, opts, now);
    hide ScheduleTurn;
    SameRoomInv(r, ScheduleTurn(r, opts, now));
  }

  lemma ScheduleEmptyInv(r: RoomState, opts: Options)
    requires RoomInv(r)
    ensures RoomInv(ScheduleEmpty(r, opts)) && SameRoom(r, ScheduleEmpty(r, opts))
  {
    SameRoomInv(r, ScheduleEmpty(r, opts));
  }

  lemma CancelInv(r: RoomState)
    requires RoomInv(r)
    ensures RoomInv(CancelEmpty(r)) && RoomInv(CancelTurn(r))
  {
    SameRoomInv(r, CancelEmpty(r));
    SameRoomInv(r, CancelTurn(r));
  }

  // ----- Edits of the members -----

  lemma EditedMembers(members: seq<Member>, i: nat, m: Member, maxPlayers: int, ownerID: int)
    requires MembersOk(members, maxPlayers) && i < |members| && MemberOk(m) && m.playerID == members[i].playerID
    ensures MembersOk(members[i := m], maxPlayers)
    ensures OwnerIn(members, ownerID) ==> OwnerIn(members[i := m], ownerID)
  {
    hide MemberOk;
    var edited := members[i := m];
    assert forall j :: 0 <= j < |edited| ==> edited[j].playerID == members[j].playerID;
    if OwnerIn(members, ownerID) {
      var j :| 0 <= j < |members| && members[j].playerID == ownerID;
      assert edited[j].playerID == ownerID;
    }
  }

  lemma MemberEditInv(r: RoomState, i: nat, m: Member)
    requires RoomInv(r) && i < |r.members| && MemberOk(m) && m.playerID == r.members[i].playerID
    requires r.phase == RoomWaiting ==> !m.autoPlay && !m.abandoned
    ensures RoomInv(SetMember(r, i, m))
  {
    hide EngineOk, MembersOk, OwnerIn, MemberOk, Blank;
    EditedMembers(r.members, i, m, r.maxPlayers, r.ownerID);
  }

  lemma RemovedMembers(members: seq<Member>, i: nat, maxPlayers: int)
    requires MembersOk(members, maxPlayers) && i < |members|
    ensures MembersOk(RemoveAt(members, i), maxPlayers)
    ensures Unmanaged(members) ==> Unmanaged(RemoveAt(members, i))
    ensures forall id :: OwnerIn(members, id) && id != members[i].playerID ==> OwnerIn(RemoveAt(members, i), id)
  {
    var left := RemoveAt(members, i);
    assert forall j :: 0 <= j < |left| ==> left[j] == members[if j < i then j else j + 1];
    forall id | OwnerIn(members, id) && id != members[i].playerID ensures OwnerIn(left, id) {
      var j :| 0 <= j < |members| && members[j].playerID == id;
      assert left[if j < i then j else j - 1].playerID == id;
    }
    hide MemberOk;
  }

  /** The one who left was the owner: the next in line owns the room and is ready. */
  lemma OwnerHandedOn(left: RoomState)
    requires left.members != [] && RoomInv(left.(ownerID := left.members[0].playerID))
    ensures RoomInv(SetMember(left, 0, left.members[0].(ready := true)).(ownerID := left.members[0].playerID))
  {
    hide RoomInv;
    var owned := left.(ownerID := left.members[0].playerID);
    var m := left.members[0].(ready := true);
    FirstMember(owned);
    MemberEditInv(owned, 0, m);
    assert SetMember(owned, 0, m) == SetMember(left, 0, m).(ownerID := m.playerID);
  }

  lemma LeftBehind(r: RoomState, i: nat)
    requires RoomInv(r) && r.phase != RoomPlaying && !r.destroyed && i < |r.members|
    ensures var left := r.(members := RemoveAt(r.members, i));
            && (left.members == [] ==> RoomInv(left.(destroyed := true, closing := true)))
            && (left.members != [] && r.members[i].playerID == r.ownerID ==> RoomInv(left.(ownerID := left.members[0].playerID)))
            && (left.members != [] && r.members[i].playerID != r.ownerID ==> RoomInv(left))
  {
    RemovedMembers(r.members, i, r.maxPlayers);
    var left := RemoveAt(r.members, i);
    if left != [] {
      OwnerFirst(left, left[0].playerID);
    }
    hide EngineOk, MembersOk, Unmanaged, OwnerIn, RemoveAt;
  }

  lemma RemoveMemberInv(r: RoomState, playerID: int, opts: Options)
    requires RoomInv(r) && r.phase != RoomPlaying && !r.destroyed
    ensures RoomInv(RemoveMember(r, playerID, opts))
  {
    hide RoomInv, RemoveAt, ScheduleEmpty;
    var i := FindMember(r.members, playerID);
    if i.Some? {
      LeftBehind(r, i.value);
      var left := r.(members := RemoveAt(r.members, i.value));
      if left.members == [] {
        var gone := left.(destroyed := true, closing := true);
        CancelInv(gone);
        CancelInv(CancelTurn(gone));
      } else if playerID == r.ownerID {
        OwnerHandedOn(left);
        ScheduleEmptyInv(SetMember(left, 0, left.members[0].(ready := true)).(ownerID := left.members[0].playerID), opts);
      } else {
        ScheduleEmptyInv(left, opts);
      }
    }
  }

  lemma OwnerFirst(members: seq<Member>, id: int)
    requires members != [] && members[0].playerID == id
    ensures OwnerIn(members, id)
  {
  }

  lemma FirstMember(r: RoomState)
    requires RoomInv(r) && r.members != []
    ensures MemberOk(r.members[0]) && (r.phase == RoomWaiting ==> !r.members[0].autoPlay && !r.members[0].abandoned)
  {
    hide EngineOk;
  }

  lemma MemberFacts(r: RoomState, i: nat)
    requires RoomInv(r) && i < |r.members|
    ensures MemberOk(r.members[i]) && (r.phase == RoomWaiting ==> !r.members[i].autoPlay && !r.members[i].abandoned)
  {
    hide EngineOk;
  }

  lemma TryJoinInv(r: RoomState, s: Session)
    requires RoomInv(r) && SessionOk(s)
    ensures RoomInv(TryJoin(r, s).room)
  {
    var joined := TryJoin(r, s).room.members;
    if OwnerIn(r.members, r.ownerID) && r.members <= joined {
      var i :| 0 <= i < |r.members| && r.members[i].playerID == r.ownerID;
      assert joined[i].playerID == r.ownerID;
    }
    hide EngineOk;
  }

  lemma VacateInv(r: RoomState, i: nat, abandoned: bool, opts: Options, now: int)
    requires RoomInv(r) && i < |r.members| && r.phase == RoomPlaying
    ensures RoomInv(Vacate(r, i, abandoned, opts, now))
  {
    var m := r.members[i].(session := None, connected := false, autoPlay := true, abandoned := abandoned);
    MemberFacts(r, i);
    MemberEditInv(r, i, m);
    var away := SetMember(r, i, m);
    ScheduleEmptyInv(away, opts);
    ScheduleTurnInv(ScheduleEmpty(away, opts), opts, now);
    assert EngineOk(away.engine);
    hide RoomInv, EngineOk, Actor, ScheduleTurn, ScheduleEmpty, SameRoom, IsActor, SetMember;
  }

  lemma HandleDisconnectInv(r: RoomState, who: Option<Session>, opts: Options, now: int)
    requires RoomInv(r) && !r.destroyed
    ensures RoomInv(HandleDisconnect(r, who, opts, now))
  {
    if who.Some? {
      var i := FindMember(r.members, who.value.playerID);
      if i.Some? && r.members[i.value].session == who {
        if r.phase == RoomPlaying {
          VacateInv(r, i.value, r.members[i.value].abandoned, opts, now);
        } else {
          RemoveMemberInv(r, who.value.playerID, opts);
        }
      }
    }
    hide RoomInv, Vacate, RemoveMember;
  }

  lemma TryReconnectInv(r: RoomState, who: Option<Session>, opts: Options, now: int)
    requires RoomInv(r)
    ensures RoomInv(TryReconnect(r, who, opts, now).room)
  {
    if who.Some? {
      var i := FindMember(r.members, who.value.playerID);
      if i.Some? && !r.members[i.value].abandoned {
        var m := r.members[i.value].(session := who, connected := true, autoPlay := false, strikes := 0);
        MemberFacts(r, i.value);
        MemberEditInv(r, i.value, m);
        var back := CancelEmpty(SetMember(r, i.value, m));
        CancelInv(SetMember(r, i.value, m));
        ScheduleTurnInv(back, opts, now);
      }
    }
    assert EngineOk(r.engine);
    hide RoomInv, EngineOk, Actor, ScheduleTurn, IsActor;
  }

  // ----- Messages -----

  lemma HandleReadyInv(r: RoomState, s: Session, ready: Option<bool>)
    requires RoomInv(r)
    ensures RoomInv(HandleReady(r, s, ready).room)
  {
    var i := FindMember(r.members, s.playerID);
    if r.phase == RoomWaiting && i.Some? && ready.Some? {
      var m := r.members[i.value];
      MemberFacts(r, i.value);
      MemberEditInv(r, i.value, m.(ready := m.playerID == r.ownerID || ready.value));
    }
    hide RoomInv;
  }

  lemma HandleStartInv(r: RoomState, s: Session, opts: Options, input: Input)
    requires RoomInv(r) && InputOk(input)
    ensures RoomInv(HandleStart(r, s, opts, input).room)
  {
    NewGameInv(MemberIDs(r.members), 0, input.dealing);
    NewGameUnfinished(MemberIDs(r.members), 0, input.dealing);
    var game := NewGame(MemberIDs(r.members), 0, input.dealing);
    var p := PersistStart(r, opts, input);
    if r.phase == RoomWaiting {
      StartPersisted(r, opts, input);
      if game.Ok? && p.error.None? {
        GameStarted(r, p.room, game.value);
        ScheduleTurnInv(p.room.(engine := Some(game.value), phase := RoomPlaying), opts, input.now);
      }
    }
    hide NewGame, ScheduleTurn, RoomInv, AllReady, PersistStart;
  }

  lemma StartPersisted(r: RoomState, opts: Options, input: Input)
    requires RoomInv(r) && InputOk(input) && r.phase == RoomWaiting
    ensures var p := PersistStart(r, opts, input);
            if p.error.Some? then RoomInv(p.room)
            else p.room == r.(matchID := p.room.matchID, matchStartedAt := p.room.matchStartedAt, matchSettled := false)
                 && MatchOk(p.room.matchID, p.room.matchStartedAt)
  {
    hide EngineOk, MembersOk, OwnerIn, Unmanaged;
  }

  lemma GameStarted(r: RoomState, p: RoomState, g: Game)
    requires RoomInv(r) && r.phase == RoomWaiting
    requires p == r.(matchID := p.matchID, matchStartedAt := p.matchStartedAt, matchSettled := false) && MatchOk(p.matchID, p.matchStartedAt)
    requires Inv(g, false) && g.phase != Finished && |g.players| == |MemberIDs(r.members)|
    requires forall s :: 0 <= s < |g.players| ==> g.players[s].id == MemberIDs(r.members)[s]
    ensures RoomInv(p.(engine := Some(g), phase := RoomPlaying))
  {
    hide Inv, MembersOk, OwnerIn, Unmanaged;
  }

  /** Nobody is without cards in a new game, so it is not over. */
  lemma NewGameUnfinished(ids: seq<int>, dealerSeat: int, shuffles: nat -> Shuffle)
    requires forall i :: Permuting(shuffles(i))
    ensures var r := NewGame(ids, dealerSeat, shuffles); r.Ok? ==> r.value.phase != Finished
  {
    NewGameInv(ids, dealerSeat, shuffles);
    hide NewGame;
  }

  lemma HandleLeaveInv(r: RoomState, s: Session, opts: Options, now: int)
    requires RoomInv(r) && !r.destroyed
    ensures RoomInv(HandleLeave(r, s, opts, now))
  {
    if r.phase == RoomPlaying {
      var i := FindMember(r.members, s.playerID);
      if i.Some? {
        VacateInv(r, i.value, true, opts, now);
      }
    } else {
      RemoveMemberInv(r, s.playerID, opts);
    }
    hide RoomInv, Vacate, RemoveMember;
  }

  // ----- The game -----

  lemma SeatsStayMatched(before: seq<Player>, after: seq<Player>, members: seq<Member>)
    requires SeatsMatch(before, members) && SameSeats(after, before)
    ensures SeatsMatch(after, members)
  {
  }

  lemma RefusedUnfinished(g: Game, command: Command, env: Env)
    requires Shape(g) && Apply(g, command, env).reply.Failed?
    ensures var g' := Apply(g, command, env).game;
            g'.phase == g.phase && g'.currentSeat == g.currentSeat && g'.players == g.players && g'.pendingColor == g.pendingColor
  {
    RefusedKeepsGame(g, command, env);
    hide Apply;
  }

  /** The room while a command's effect on the engine is in, but the room phase has not followed yet. */
  ghost predicate MovedInv(r: RoomState) {
    && !Blank(r.id)
    && MembersOk(r.members, r.maxPlayers)
    && (r.destroyed || OwnerIn(r.members, r.ownerID))
    && EngineOk(r.engine)
    && r.phase == RoomPlaying && r.engine.Some? && SeatsMatch(r.engine.value.players, r.members)
    && MatchOk(r.matchID, r.matchStartedAt) && !r.matchSettled
  }

  lemma PlayedOnInv(r: RoomState)
    requires MovedInv(r)
    ensures r.engine.value.phase != Finished ==> RoomInv(r)
    ensures r.engine.value.phase == Finished ==>
              RoomInv(r.(phase := RoomSettled)) && RoomInv(r.(phase := RoomSettled, matchSettled := true))
  {
    hide EngineOk, MembersOk, OwnerIn;
  }

  lemma MovedEdit(r: RoomState, i: nat, m: Member)
    requires MovedInv(r) && i < |r.members| && MemberOk(m) && m.playerID == r.members[i].playerID
    ensures MovedInv(SetMember(r, i, m))
  {
    hide EngineOk, MembersOk, OwnerIn, MemberOk, Blank;
    EditedMembers(r.members, i, m, r.maxPlayers, r.ownerID);
  }

  lemma MovedMember(r: RoomState, playerID: int)
    requires MovedInv(r) && FindMember(r.members, playerID).Some?
    ensures MemberOk(r.members[FindMember(r.members, playerID).value])
    ensures SeatOf(r.engine.value.players, playerID).Some?
  {
    var i := FindMember(r.members, playerID).value;
    assert r.engine.value.players[i].id == playerID;
    hide EngineOk;
  }

  lemma FollowedInv(r: RoomState, turnAction: bool, opts: Options, input: Input)
    requires MovedInv(r)
    ensures EngineOk(r.engine) && RoomInv(Followed(r, turnAction, opts, input).room)
  {
    assert EngineOk(r.engine);
    hide MovedInv, RoomInv, EngineOk, ScheduleTurn, CancelTurn;
    PlayedOnInv(r);
    if r.engine.value.phase == Finished {
      SettledCancelled(r);
    } else {
      ScheduleTurnInv(r, opts, input.now);
    }
  }

  lemma FinishCommandInv(r: RoomState, playerID: int, turnAction: bool, opts: Options, input: Input)
    requires MovedInv(r) && FindMember(r.members, playerID).Some?
    ensures RoomInv(FinishCommand(r, playerID, turnAction, opts, input).room)
  {
    MovedMember(r, playerID);
    assert EngineOk(r.engine);
    hide MovedInv, RoomInv, EngineOk, Followed;
    MovedEdit(r, FindMember(r.members, playerID).value,
              r.members[FindMember(r.members, playerID).value].(strikes := 0, autoPlay := false));
    FollowedInv(if turnAction then Cleared(r, playerID) else r, turnAction, opts, input);
  }

  lemma SettledCancelled(r: RoomState)
    requires MovedInv(r) && r.engine.value.phase == Finished
    ensures var over := CancelTurn(r.(phase := RoomSettled)); RoomInv(over) && RoomInv(over.(matchSettled := true))
  {
    PlayedOnInv(r);
    CancelInv(r.(phase := RoomSettled));
    CancelInv(r.(phase := RoomSettled, matchSettled := true));
    hide RoomInv, MovedInv;
  }

  lemma EngineMoved(r: RoomState, g: Game)
    requires RoomInv(r) && r.phase == RoomPlaying && Inv(g, false) && SameSeats(g.players, r.engine.value.players)
    ensures MovedInv(r.(engine := Some(g)))
  {
    SeatsStayMatched(r.engine.value.players, g.players, r.members);
    hide MembersOk, OwnerIn, Inv;
  }

  lemma HandleMoveInv(r: RoomState, s: Session, move: Move, opts: Options, input: Input)
    requires RoomInv(r) && InputOk(input) && FindMember(r.members, s.playerID).Some?
    ensures RoomInv(HandleMove(r, s, move, opts, input).room)
  {
    var command := CommandOf(s.playerID, move);
    if r.phase == RoomPlaying && command.Some? {
      var g := r.engine.value;
      InvShape(g, false);
      var o := Apply(g, command.value, EnvOf(input));
      ApplyInv(g, command.value, EnvOf(input), false);
      ApplySeats(g, command.value, EnvOf(input));
      EngineMoved(r, o.game);
      var moved := r.(engine := Some(o.game));
      hide RoomInv, MovedInv, Apply, Inv, FinishCommand;
      if o.reply.Failed? {
        RefusedUnfinished(g, command.value, EnvOf(input));
        Unfinished(r);
        PlayedOnInv(moved);
      } else {
        FinishCommandInv(moved, s.playerID, IsTurnAction(move), opts, input);
      }
    } else {
      hide RoomInv;
    }
  }

  lemma Unfinished(r: RoomState)
    requires RoomInv(r) && r.phase == RoomPlaying
    ensures r.engine.Some? && r.engine.value.phase != Finished
  {
  }

  lemma HandleMessageInv(r: RoomState, s: Session, message: Message, opts: Options, input: Input)
    requires RoomInv(r) && InputOk(input) && !r.destroyed
    ensures RoomInv(HandleMessage(r, s, message, opts, input).room)
  {
    var i := FindMember(r.members, s.playerID);
    hide RoomInv, HandleReady, HandleStart, HandleLeave, HandleKick, HandleMove, InputOk;
    if i.Some? {
      match message
      case ReadyMessage(ready) => HandleReadyInv(r, s, ready);
      case StartMessage => HandleStartInv(r, s, opts, input);
      case LeaveMessage => HandleLeaveInv(r, s, opts, input.now);
      case KickMessage(target) => HandleKickInv(r, s, target, opts);
      case MoveMessage(move) => HandleMoveInv(r, s, move, opts, input);
      case UnknownMessage =>
    }
  }

  lemma HandleKickInv(r: RoomState, s: Session, target: Option<int>, opts: Options)
    requires RoomInv(r) && !r.destroyed
    ensures RoomInv(HandleKick(r, s, target, opts).room)
  {
    if target.Some? && r.phase == RoomWaiting {
      RemoveMemberInv(r, target.value, opts);
    }
    hide RoomInv, RemoveMember;
  }

  // ----- Timer events -----

  /** Automatic play keeps the seats. */
  lemma AutoPlaySeats(g: Game, playerID: int, cardID: int, picks: Picks, env: Env)
    requires Inv(g, false) && EnvOk(env) && PicksOk(picks)
    ensures SameSeats(AutoPlay(g, playerID, cardID, picks, env).game.players, g.players)
    ensures AutoPlay(g, playerID, cardID, picks, env).reply.Failed? && g.phase != Finished ==>
              AutoPlay(g, playerID, cardID, picks, env).game.phase != Finished
  {
    InvShape(g, false);
    var played := PlayCard(g, playerID, cardID, true, env);
    PlayCardInv(g, playerID, cardID, true, env, false);
    InvShape(played.game, false);
    PlaySeats(g, playerID, cardID, true, env);
    RefusedPlay(g, playerID, cardID, env);
    hide PlayCard, Inv;
    PickSeats(played.game, playerID, COLORS[picks.color]);
    PickRefused(played.game, playerID, COLORS[picks.color]);
    hide PickColor;
  }

  lemma RefusedPlay(g: Game, playerID: int, cardID: int, env: Env)
    requires Shape(g)
    ensures PlayCard(g, playerID, cardID, true, env).reply.Failed? ==> PlayCard(g, playerID, cardID, true, env).game == g
  {
    hide PlayCheck, ApplyCardEffect, Discarded;
  }

  lemma PickRefused(g: Game, playerID: int, color: Color)
    requires Shape(g)
    ensures PickColor(g, playerID, color).reply.Failed? ==> PickColor(g, playerID, color).game == g
  {
    hide ApplyCardEffect;
  }

  lemma DrewUnfinished(g: Game, playerID: int, env: Env)
    requires Shape(g) && g.phase != Finished
    ensures var o := DrawCard(g, playerID, env);
            && (o.reply.Failed? ==> o.game == g)
            && (o.reply.Drew? && o.reply.draw.canPlay ==> o.game.phase != Finished)
  {
    hide DealCards, FinishIfResolved, Playable;
  }

  lemma AutoActSeats(g: Game, playerID: int, view: View, picks: Picks, env: Env)
    requires Inv(g, false) && EnvOk(env) && PicksOk(picks)
    ensures SameSeats(AutoAct(g, playerID, view, picks, env).game.players, g.players)
    ensures AutoAct(g, playerID, view, picks, env).reply.Failed? && g.phase != Finished ==>
              AutoAct(g, playerID, view, picks, env).game.phase != Finished
  {
    InvShape(g, false);
    DrawCardInv(g, playerID, env, false);
    DrawSeats(g, playerID, env);
    if g.phase != Finished { DrewUnfinished(g, playerID, env); }
    PickSeats(g, playerID, COLORS[picks.color]);
    PickRefused(g, playerID, COLORS[picks.color]);
    hide Inv, PickColor, DrawCard, AutoPlay;
    var offered := view.playableCardIDs;
    match view.phase
    case AwaitingColor =>
    case AwaitingDrawDecision =>
      if offered != [] { AutoPlaySeats(g, playerID, offered[picks.card(|offered|)], picks, env); }
    case Playing =>
      var drawn := DrawCard(g, playerID, env);
      if view.pendingDraw <= 0 && offered != [] {
        AutoPlaySeats(g, playerID, offered[picks.card(|offered|)], picks, env);
      } else if drawn.reply.Drew? && drawn.reply.draw.canPlay && drawn.reply.draw.cards != [] {
        AutoPlaySeats(drawn.game, playerID, drawn.reply.draw.cards[0].id, picks, env);
      }
    case _ =>
  }

  lemma FinishAutomatedInv(r: RoomState, opts: Options, input: Input)
    requires MovedInv(r)
    ensures RoomInv(FinishAutomated(r, opts, input))
  {
    FirstSeated(r);
    PlayedOnInv(r);
    if r.engine.value.phase == Finished {
      SettledCancelled(r);
    } else {
      ScheduleTurnInv(r, opts, input.now);
    }
    hide MovedInv, RoomInv, EngineOk, ScheduleTurn, CancelTurn;
  }

  lemma FirstSeated(r: RoomState)
    requires MovedInv(r)
    ensures r.members != [] && SeatOf(r.engine.value.players, r.members[0].playerID).Some?
    ensures EngineOk(r.engine)
  {
    assert |r.engine.value.players| >= 2;
    SeatedMember(r.engine.value.players, r.members, 0);
  }

  lemma AutoOutcomeFacts(g: Game, playerID: int, input: Input)
    requires Inv(g, false) && InputOk(input) && SeatOf(g.players, playerID).Some? && g.phase != Finished
    ensures var o := AutoOutcome(g, playerID, input);
            SameSeats(o.game.players, g.players) && (o.reply.Failed? ==> o.game.phase != Finished)
  {
    InvShape(g, false);
    AutoActSeats(g, playerID, ViewFor(g, playerID, input.now).value, input.picks, EnvOf(input));
    hide AutoAct, ViewFor;
  }

  lemma StruckInv(r: RoomState, i: nat, g: Game, kind: TurnKind, opts: Options)
    requires RoomInv(r) && r.phase == RoomPlaying && i < |r.members|
    requires Inv(g, false) && SameSeats(g.players, r.engine.value.players)
    ensures MovedInv(SetMember(r.(engine := Some(g)), i, Struck(r.members[i], kind, opts)))
  {
    EngineMoved(r, g);
    MemberFacts(r, i);
    hide RoomInv, MovedInv, Inv;
    MovedEdit(r.(engine := Some(g)), i, Struck(r.members[i], kind, opts));
  }

  lemma HandleTurnEventInv(r: RoomState, kind: TurnKind, token: nat, opts: Options, input: Input)
    requires RoomInv(r) && InputOk(input)
    ensures RoomInv(HandleTurnEvent(r, kind, token, opts, input))
  {
    if token == r.turnToken && r.phase == RoomPlaying {
      var g := r.engine.value;
      ActorIsCurrent(r.members, g);
      var i: nat := g.currentSeat;
      SeatedMember(g.players, r.members, i);
      var o := AutoOutcome(g, r.members[i].playerID, input);
      AutoOutcomeFacts(g, r.members[i].playerID, input);
      StruckInv(r, i, o.game, kind, opts);
      var acted := SetMember(r.(engine := Some(o.game)), i, Struck(r.members[i], kind, opts));
      hide RoomInv, MovedInv, AutoOutcome, Inv, FinishAutomated, Actor, ScheduleTurn, Struck, SameSeats, SeatsMatch;
      if o.reply.Failed? {
        PlayedOnInv(acted);
        ScheduleTurnInv(acted, opts, input.now);
      } else {
        FinishAutomatedInv(acted, opts, input);
      }
    } else {
      hide RoomInv, AutoOutcome;
    }
  }

  /** Every command, whatever it is and whatever it reads from outside, keeps the room in order. */
  lemma ExecuteInv(r: RoomState, command: RoomCommand, opts: Options, input: Input)
    requires RoomInv(r) && CommandOk(command) && InputOk(input) && !r.destroyed
    ensures RoomInv(Execute(r, command, opts, input).room)
  {
    match command
    case FromPlayer(s, message) => HandleMessageInv(r, s, message, opts, input); hide RoomInv, HandleMessage;
    case Join(s) => TryJoinInv(r, s); hide RoomInv, TryJoin;
    case Disconnect(who) => HandleDisconnectInv(r, who, opts, input.now); hide RoomInv, HandleDisconnect;
    case Reconnect(who) => TryReconnectInv(r, who, opts, input.now); hide RoomInv, TryReconnect;
    case Timer(TurnEvent(kind, token)) => HandleTurnEventInv(r, kind, token, opts, input); hide RoomInv, HandleTurnEvent;
    case _ => hide EngineOk, MembersOk, PhaseOk, OwnerIn;
  }
}
