/** Business ids: 41 bits of milliseconds, 10 bits of node, 12 bits of sequence. */
module IdGen {
  import opened Wrappers

  const MAX_SEQUENCE: int := 4095
  const MAX_NODE: int := 1023
  const MAX_TIMESTAMP: int := 0x1FF_FFFF_FFFF
  const TIMESTAMP_UNIT: int := 0x40_0000

  datatype IdError = OutOfRange | ClockBackwards | NonPositive

  /** The three fields side by side. */
  function Pack(millis: int, node: int, sequence: int): int {
    millis * TIMESTAMP_UNIT + node * 4096 + sequence
  }

  predicate InRange(millis: int, node: int, sequence: int) {
    0 <= millis <= MAX_TIMESTAMP && 0 <= node <= MAX_NODE && 0 <= sequence <= MAX_SEQUENCE
  }

  /** An id is a positive 63-bit number, or zero for the very first moment of node zero; its fields can be read off. */
  lemma PackUnpacks(millis: int, node: int, sequence: int)
    requires InRange(millis, node, sequence)
    ensures var id := Pack(millis, node, sequence);
            && 0 <= id < 0x8000_0000_0000_0000
            && id / TIMESTAMP_UNIT == millis
            && id / 4096 % 1024 == node
            && id % 4096 == sequence
            && (id == 0 <==> millis == 0 && node == 0 && sequence == 0)
  {
    var id := Pack(millis, node, sequence);
    assert id == 4096 * (millis * 1024 + node) + sequence;
    assert id / 4096 == millis * 1024 + node;
  }

  /** Two ids are equal only if all their fields are; in particular nodes never collide. */
  lemma PackInjective(m: int, n: int, s: int, m': int, n': int, s': int)
    requires InRange(m, n, s) && InRange(m', n', s') && Pack(m, n, s) == Pack(m', n', s')
    ensures m == m' && n == n' && s == s'
  {
    PackUnpacks(m, n, s);
    PackUnpacks(m', n', s');
  }

  /** On 64-bit words: joining the shifted fields with "or" loses nothing and is their sum. */
  lemma PackBits(millis: bv64, node: bv64, sequence: bv64)
    requires millis <= 0x1FF_FFFF_FFFF && node <= 1023 && sequence <= 4095
    ensures var id := (millis << 22) | (node << 12) | sequence;
            && id == (millis << 22) + (node << 12) + sequence
            && id >> 22 == millis && (id >> 12) & 1023 == node && id & 4095 == sequence
            && id < 0x8000_0000_0000_0000
  {
  }

  datatype Gen = Gen(node: int, last: int, sequence: int)

  datatype Issue = Issue(gen: Gen, id: Result<int, IdError>)

  predicate Valid(g: Gen) {
    0 <= g.node <= MAX_NODE && -1 <= g.last <= MAX_TIMESTAMP && 0 <= g.sequence <= MAX_SEQUENCE
  }

  function Elapsed(reading: int): Result<int, IdError> {
    if reading < 0 || reading > MAX_TIMESTAMP then Err(OutOfRange) else Ok(reading)
  }

  /** The clock moves at some point: some polled reading is not the exhausted millisecond. */
  predicate Moves(polls: seq<int>, previous: int) {
    exists i :: 0 <= i < |polls| && polls[i] != previous
  }

  /** Polls until the reading is no longer `previous`. */
  function WaitNext(previous: int, polls: seq<int>): Result<int, IdError>
    requires Moves(polls, previous)
  {
    if polls[0] == previous && Elapsed(previous).Ok? then
      assert forall i :: 0 < i < |polls| ==> polls[i] == polls[1..][i - 1];
      WaitNext(previous, polls[1..])
    else match Elapsed(polls[0])
         case Err(e) => Err(e)
         case Ok(elapsed) => if elapsed < previous then Err(ClockBackwards) else Ok(elapsed)
  }

  /** One request: `first` is the clock when it comes, `polls` what the clock shows while waiting. */
  datatype Request = Request(first: int, polls: seq<int>)

  /** The sequence of the last millisecond is used up, so the request has to wait. */
  predicate MustWait(g: Gen, r: Request) {
    r.first == g.last && g.sequence == MAX_SEQUENCE
  }

  /** A request that waits ends only if the clock moves at some point. */
  predicate Returns(g: Gen, r: Request) {
    MustWait(g, r) ==> Moves(r.polls, g.last)
  }

  function NextID(g: Gen, r: Request): Issue
    requires Valid(g) && Returns(g, r)
  {
    if Elapsed(r.first).Err? then Issue(g, Err(OutOfRange))
    else if r.first < g.last then Issue(g, Err(ClockBackwards))
    else
      var sequence := if r.first == g.last then (g.sequence + 1) % 4096 else 0;
      if r.first == g.last && sequence == 0 then
        match WaitNext(g.last, r.polls)
        case Err(e) => Issue(g.(sequence := 0), Err(e))
        case Ok(elapsed) => Issued(g, elapsed, 0)
      else Issued(g, r.first, sequence)
  }

  function Issued(g: Gen, elapsed: int, sequence: int): Issue {
    var id := Pack(elapsed, g.node, sequence);
    Issue(g.(last := elapsed, sequence := sequence), if id <= 0 then Err(NonPositive) else Ok(id))
  }

  /** The generator object: one request at a time, under its lock. */
  class Generator {
    const nodeID: int
    var lastMillis: int
    var sequence: int

    function State(): Gen
      reads this
    {
      Gen(nodeID, lastMillis, sequence)
    }

    constructor (nodeID: int)
      requires 0 <= nodeID <= MAX_NODE
      ensures State() == Gen(nodeID, -1, 0)
    {
      this.nodeID, lastMillis, sequence := nodeID, -1, 0;
    }

    method WaitNextMillis(previous: int, polls: seq<int>) returns (r: Result<int, IdError>)
      requires Moves(polls, previous)
      ensures r == WaitNext(previous, polls)
    {
      var i := 0;
      while true
        invariant 0 <= i < |polls| && Moves(polls[i..], previous)
        invariant WaitNext(previous, polls[i..]) == WaitNext(previous, polls)
        decreases |polls| - i
      {
        if polls[i] < 0 || polls[i] > MAX_TIMESTAMP {
          return Err(OutOfRange);
        }
        if polls[i] < previous {
          return Err(ClockBackwards);
        }
        if polls[i] > previous {
          return Ok(polls[i]);
        }
        assert polls[i..][1..] == polls[i + 1..];
        MovesLater(polls[i..], previous);
        i := i + 1;
      }
    }

    method Next(r: Request) returns (id: Result<int, IdError>)
      requires Valid(State()) && Returns(State(), r)
      modifies this
      ensures Issue(State(), id) == NextID(old(State()), r)
    {
      var elapsed := r.first;
      if elapsed < 0 || elapsed > MAX_TIMESTAMP {
        return Err(OutOfRange);
      }
      if elapsed < lastMillis {
        return Err(ClockBackwards);
      }
      if elapsed == lastMillis {
        sequence := (sequence + 1) % 4096;
        if sequence == 0 {
          var waited := WaitNextMillis(lastMillis, r.polls);
          if waited.Err? {
            return waited;
          }
          elapsed := waited.value;
        }
      } else {
        sequence := 0;
      }
      lastMillis := elapsed;
      var packed := Pack(elapsed, nodeID, sequence);
      if packed <= 0 {
        return Err(NonPositive);
      }
      id := Ok(packed);
    }
  }

  // Runs

  function Advance(g: Gen, r: Request): (after: Gen)
    requires Valid(g) && Returns(g, r)
    ensures Valid(after) && after.node == g.node
  {
    NextKeepsValid(g, r);
    NextID(g, r).gen
  }

  predicate AllReturn(g: Gen, requests: seq<Request>)
    requires Valid(g)
    decreases |requests|
  {
    requests != [] ==> Returns(g, requests[0]) && AllReturn(Advance(g, requests[0]), requests[1..])
  }

  /** The ids handed out over a run, failed requests left out. */
  function IDs(g: Gen, requests: seq<Request>): seq<int>
    requires Valid(g) && AllReturn(g, requests)
    decreases |requests|
  {
    if requests == [] then []
    else
      var id := NextID(g, requests[0]).id;
      (if id.Ok? then [id.value] else []) + IDs(Advance(g, requests[0]), requests[1..])
  }

  /** The readings never fall, starting from `from`. */
  predicate Rises(from: int, readings: seq<int>)
    decreases |readings|
  {
    readings != [] ==> from <= readings[0] && Rises(readings[0], readings[1..])
  }

  /** Every reading the requests take, in order, never falls. */
  predicate ClockRises(from: int, requests: seq<Request>)
    decreases |requests|
  {
    requests != [] ==>
      && from <= requests[0].first
      && Rises(requests[0].first, requests[0].polls)
      && ClockRises(LastReading(requests[0]), requests[1..])
  }

  function LastReading(r: Request): int {
    if r.polls == [] then r.first else r.polls[|r.polls| - 1]
  }

  lemma NextKeepsValid(g: Gen, r: Request)
    requires Valid(g) && Returns(g, r)
    ensures Valid(NextID(g, r).gen) && NextID(g, r).gen.node == g.node
  {
    if MustWait(g, r) && r.first >= 0 {
      WaitBounds(g.last, r.polls);
    }
  }

  /** A wait that succeeds ends at a later millisecond within range. */
  lemma {:induction false} WaitBounds(previous: int, polls: seq<int>)
    requires 0 <= previous <= MAX_TIMESTAMP && Moves(polls, previous)
    ensures var w := WaitNext(previous, polls);
            w.Ok? ==> previous < w.value <= MAX_TIMESTAMP && w.value in polls
    decreases |polls|
  {
    if polls[0] == previous {
      MovesLater(polls, previous);
      WaitBounds(previous, polls[1..]);
    }
  }

  /** Under a clock that never falls a wait fails only once time has run out of its 41 bits. */
  lemma {:induction false} WaitFailsLate(previous: int, polls: seq<int>)
    requires 0 <= previous <= MAX_TIMESTAMP && Moves(polls, previous) && Rises(previous, polls)
    ensures var w := WaitNext(previous, polls);
            w.Err? ==> polls[|polls| - 1] > MAX_TIMESTAMP
    ensures var w := WaitNext(previous, polls);
            w.Ok? ==> w.value <= polls[|polls| - 1]
    decreases |polls|
  {
    if polls[0] == previous {
      MovesLater(polls, previous);
      WaitFailsLate(previous, polls[1..]);
    } else {
      RisesToLast(previous, polls);
    }
  }

  lemma {:induction false} RisesToLast(from: int, readings: seq<int>)
    requires Rises(from, readings) && readings != []
    ensures from <= readings[0] <= readings[|readings| - 1]
    decreases |readings|
  {
    if |readings| > 1 {
      RisesToLast(readings[0], readings[1..]);
    }
  }

  /** Packing keeps the order of (millisecond, sequence) for one node. */
  lemma PackMonotone(m: int, n: int, s: int, m': int, s': int)
    requires InRange(m, n, s) && InRange(m', n, s')
    ensures Pack(m, n, s) < Pack(m', n, s') <==> m < m' || (m == m' && s < s')
  {
  }

  /** The whole word the generator stands at. */
  function Word(g: Gen): int {
    Pack(g.last, g.node, g.sequence)
  }

  /** One request: an id it returns is the new word, and the word only falls when a wait failed. */
  lemma NextWord(g: Gen, r: Request)
    requires Valid(g) && Returns(g, r)
    ensures var i := NextID(g, r);
            && (i.id.Ok? ==> i.id.value == Word(i.gen) && i.gen.last >= 0 && i.gen.last in [r.first] + r.polls
                             && Word(g) < i.id.value < 0x8000_0000_0000_0000 && 0 < i.id.value)
            && (Word(i.gen) < Word(g) <==> MustWait(g, r) && r.first >= 0 && WaitNext(g.last, r.polls).Err?)
  {
    NextKeepsValid(g, r);
    var i := NextID(g, r);
    if MustWait(g, r) && r.first >= 0 {
      WaitBounds(g.last, r.polls);
    }
    if i.gen.last >= 0 {
      PackUnpacks(i.gen.last, g.node, i.gen.sequence);
      if g.last >= 0 {
        PackMonotone(g.last, g.node, g.sequence, i.gen.last, i.gen.sequence);
        PackMonotone(i.gen.last, g.node, i.gen.sequence, g.last, g.sequence);
      }
    }
  }

  // Exactly when the ids of a run increase

  predicate Up(ids: seq<int>) {
    (forall k :: 0 <= k < |ids| ==> 0 < ids[k]) && (forall j, k :: 0 <= j < k < |ids| ==> ids[j] < ids[k])
  }

  predicate NoRepeats(ids: seq<int>) {
    forall j, k :: 0 <= j < k < |ids| ==> ids[j] != ids[k]
  }

  /** The millisecond is used up and the wait for the next one fails. */
  predicate WaitFails(g: Gen, r: Request)
    requires Valid(g) && Returns(g, r)
  {
    MustWait(g, r) && r.first >= 0 && WaitNext(g.last, r.polls).Err?
  }

  /** Since a wait failed the generator has not moved on to another millisecond. */
  predicate Fallen(g: Gen, fallen: bool, r: Request)
    requires Valid(g) && Returns(g, r)
  {
    WaitFails(g, r) || (fallen && Advance(g, r).last == g.last)
  }

  /** No request comes back to a millisecond whose wait has failed. */
  predicate Steady(g: Gen, fallen: bool, requests: seq<Request>)
    requires Valid(g) && AllReturn(g, requests)
    decreases |requests|
  {
    requests != [] ==>
      && !(fallen && requests[0].first == g.last)
      && Steady(Advance(g, requests[0]), Fallen(g, fallen, requests[0]), requests[1..])
  }

  /** What the ids `done` issued so far and the generator's state have to do with each other. */
  predicate History(g: Gen, fallen: bool, done: seq<int>) {
    && Up(done)
    && (fallen ==> g.sequence == 0)
    && (g.last < 0 ==> done == [] && !fallen && g.sequence == 0)
    && (g.last >= 0 ==>
          && (forall k :: 0 <= k < |done| ==> done[k] <= Pack(g.last, g.node, if fallen then MAX_SEQUENCE else g.sequence))
          && (fallen || g.sequence >= 1 ==> Pack(g.last, g.node, 1) in done))
  }

  function Issues(g: Gen, r: Request): (ids: seq<int>)
    requires Valid(g) && Returns(g, r)
  {
    var id := NextID(g, r).id;
    if id.Ok? then [id.value] else []
  }

  lemma FailedWaitKept(g: Gen, fallen: bool, done: seq<int>, r: Request)
    requires Valid(g) && Returns(g, r) && History(g, fallen, done) && WaitFails(g, r)
    ensures Issues(g, r) == [] && Advance(g, r) == g.(sequence := 0)
    ensures History(Advance(g, r), true, done)
  {
  }

  /** Where the state moves it moves up, and the new word is issued unless it is zero. */
  lemma NextMoves(g: Gen, r: Request)
    requires Valid(g) && Returns(g, r) && !WaitFails(g, r)
    ensures var a := Advance(g, r);
            || (a == g && Issues(g, r) == [])
            || (&& a.last >= 0 && a.last >= g.last
                && (a.last == g.last ==> r.first == g.last && a.sequence == g.sequence + 1)
                && (a.last > g.last ==> a.sequence == 0)
                && Issues(g, r) == (if Word(a) > 0 then [Word(a)] else []))
  {
    if MustWait(g, r) && r.first >= 0 {
      WaitBounds(g.last, r.polls);
    }
  }

  lemma IssuedAbove(g: Gen, fallen: bool, done: seq<int>, a: Gen)
    requires Valid(g) && Valid(a) && a.node == g.node && History(g, fallen, done) && a.last >= 0
    requires if a.last > g.last then a.sequence == 0 else a.last == g.last && !fallen && a.sequence == g.sequence + 1
    ensures forall k :: 0 <= k < |done| ==> done[k] < Word(a)
    ensures Word(a) >= 0 && (Word(a) == 0 ==> done == [])
    ensures a.sequence > 1 ==> Pack(a.last, a.node, 1) in done
  {
    PackUnpacks(a.last, a.node, a.sequence);
    if g.last >= 0 {
      PackMonotone(g.last, g.node, if fallen then MAX_SEQUENCE else g.sequence, a.last, a.sequence);
    }
  }

  lemma UpAppend(done: seq<int>, id: int)
    requires Up(done) && 0 < id && forall k :: 0 <= k < |done| ==> done[k] < id
    ensures Up(done + [id]) && id in done + [id] && forall x :: x in done ==> x in done + [id]
    ensures forall k :: 0 <= k < |done + [id]| ==> (done + [id])[k] <= id
  {
  }

  lemma HistoryKept(g: Gen, fallen: bool, done: seq<int>, r: Request)
    requires Valid(g) && Returns(g, r) && History(g, fallen, done) && !(fallen && r.first == g.last)
    ensures History(Advance(g, r), Fallen(g, fallen, r), done + Issues(g, r))
  {
    assert done + [] == done;
    if WaitFails(g, r) {
      FailedWaitKept(g, fallen, done, r);
    } else {
      NextMoves(g, r);
      var a := Advance(g, r);
      if a != g {
        IssuedAbove(g, fallen, done, a);
        hide Pack, NextID, Advance;
        assert !Fallen(g, fallen, r);
        if Word(a) > 0 {
          UpAppend(done, Word(a));
        }
      }
    }
  }

  /** Coming back to a millisecond whose wait has failed gives out its first id again. */
  lemma FallenRepeats(g: Gen, done: seq<int>, r: Request)
    requires Valid(g) && Returns(g, r) && History(g, true, done) && r.first == g.last
    ensures Issues(g, r) == [Pack(g.last, g.node, 1)] && Pack(g.last, g.node, 1) in done
  {
    PackUnpacks(g.last, g.node, 1);
  }

  lemma RepeatedID(done: seq<int>, id: int, rest: seq<int>)
    requires id in done
    ensures !NoRepeats(done + ([id] + rest)) && !Up(done + ([id] + rest))
  {
    var k :| 0 <= k < |done| && done[k] == id;
    var all := done + ([id] + rest);
    assert all[k] == all[|done|];
  }

  /** The ids of a run strictly increase, whatever the clock does, if and only if no request comes back to a millisecond
      whose wait has failed; and if one does, an id is given out twice. */
  lemma {:induction false} IDsIncreaseIff(g: Gen, fallen: bool, done: seq<int>, requests: seq<Request>)
    requires Valid(g) && AllReturn(g, requests) && History(g, fallen, done)
    ensures Up(done + IDs(g, requests)) <==> Steady(g, fallen, requests)
    ensures NoRepeats(done + IDs(g, requests)) <==> Steady(g, fallen, requests)
    decreases |requests|
  {
    hide NextID, History, WaitFails, Pack, Fallen;
    if requests == [] {
      assert done + [] == done;
      assert Up(done) by { HistoryIsUp(g, fallen, done); }
    } else {
      var r := requests[0];
      var rest := IDs(Advance(g, r), requests[1..]);
      IDsHead(g, requests);
      if fallen && r.first == g.last {
        FallenRepeats(g, done, r);
        RepeatedID(done, Pack(g.last, g.node, 1), rest);
      } else {
        HistoryKept(g, fallen, done, r);
        IDsIncreaseIff(Advance(g, r), Fallen(g, fallen, r), done + Issues(g, r), requests[1..]);
        assert done + (Issues(g, r) + rest) == (done + Issues(g, r)) + rest;
      }
    }
  }

  lemma HistoryIsUp(g: Gen, fallen: bool, done: seq<int>)
    requires History(g, fallen, done)
    ensures Up(done)
  {
  }

  lemma IDsHead(g: Gen, requests: seq<Request>)
    requires Valid(g) && requests != [] && AllReturn(g, requests)
    ensures IDs(g, requests) == Issues(g, requests[0]) + IDs(Advance(g, requests[0]), requests[1..])
  {
  }

  /** For a fresh generator: exactly when its ids strictly increase, and exactly when none is given out twice. */
  lemma FreshIDsIncreaseIff(node: int, requests: seq<Request>)
    requires 0 <= node <= MAX_NODE && AllReturn(Gen(node, -1, 0), requests)
    ensures Up(IDs(Gen(node, -1, 0), requests)) <==> Steady(Gen(node, -1, 0), false, requests)
    ensures NoRepeats(IDs(Gen(node, -1, 0), requests)) <==> Steady(Gen(node, -1, 0), false, requests)
  {
    IDsIncreaseIff(Gen(node, -1, 0), false, [], requests);
    assert [] + IDs(Gen(node, -1, 0), requests) == IDs(Gen(node, -1, 0), requests);
  }

  predicate NoWaitFails(g: Gen, requests: seq<Request>)
    requires Valid(g) && AllReturn(g, requests)
    decreases |requests|
  {
    requests != [] ==> !WaitFails(g, requests[0]) && NoWaitFails(Advance(g, requests[0]), requests[1..])
  }

  /** A clock may fall as it likes between requests: as long as no wait fails the run is steady. */
  lemma {:induction false} SteadyWithoutFailedWaits(g: Gen, requests: seq<Request>)
    requires Valid(g) && AllReturn(g, requests) && NoWaitFails(g, requests)
    ensures Steady(g, false, requests)
    decreases |requests|
  {
    if requests != [] {
      SteadyWithoutFailedWaits(Advance(g, requests[0]), requests[1..]);
    }
  }

  lemma FallenIsLate(g: Gen, fallen: bool, r: Request, from: int)
    requires Valid(g) && Returns(g, r) && (fallen ==> from > MAX_TIMESTAMP)
    requires from <= r.first && Rises(r.first, r.polls)
    ensures !(fallen && r.first == g.last)
    ensures Fallen(g, fallen, r) ==> LastReading(r) > MAX_TIMESTAMP
  {
    if r.polls != [] {
      RisesToLast(r.first, r.polls);
    }
    if WaitFails(g, r) {
      WaitFailsLate(g.last, r.polls);
    }
  }

  /** Nor does a clock that never falls come back: under it a wait fails only when time has run out. */
  lemma {:induction false} SteadyUnderRisingClock(g: Gen, fallen: bool, requests: seq<Request>, from: int)
    requires Valid(g) && AllReturn(g, requests) && ClockRises(from, requests) && (fallen ==> from > MAX_TIMESTAMP)
    ensures Steady(g, fallen, requests)
    decreases |requests|
  {
    if requests != [] {
      FallenIsLate(g, fallen, requests[0], from);
      hide NextID, Fallen, Rises, LastReading;
      SteadyUnderRisingClock(Advance(g, requests[0]), Fallen(g, fallen, requests[0]), requests[1..], LastReading(requests[0]));
    }
  }

  /** A clock that never falls: over every run the ids strictly increase, above everything issued before. */
  lemma IDsIncrease(g: Gen, done: seq<int>, requests: seq<Request>, from: int)
    requires Valid(g) && AllReturn(g, requests) && History(g, false, done) && ClockRises(from, requests)
    ensures Up(done + IDs(g, requests))
  {
    SteadyUnderRisingClock(g, false, requests, from);
    IDsIncreaseIff(g, false, done, requests);
  }

  /** A fresh generator's ids strictly increase for as long as its clock never falls. */
  lemma FreshIDsIncrease(node: int, requests: seq<Request>, from: int)
    requires 0 <= node <= MAX_NODE && AllReturn(Gen(node, -1, 0), requests) && ClockRises(from, requests)
    ensures Up(IDs(Gen(node, -1, 0), requests))
  {
    IDsIncrease(Gen(node, -1, 0), [], requests, from);
    assert [] + IDs(Gen(node, -1, 0), requests) == IDs(Gen(node, -1, 0), requests);
  }

  /** An id is its moment, its node and a sequence number, whatever the clock does. */
  ghost predicate FromNode(id: int, node: int) {
    exists millis, sequence :: InRange(millis, node, sequence) && id == Pack(millis, node, sequence)
  }

  lemma {:induction false} IDsFromNode(g: Gen, requests: seq<Request>)
    requires Valid(g) && AllReturn(g, requests)
    ensures forall id :: id in IDs(g, requests) ==> FromNode(id, g.node) && 0 < id < 0x8000_0000_0000_0000
    decreases |requests|
  {
    if requests != [] {
      var i := NextID(g, requests[0]);
      NextKeepsValid(g, requests[0]);
      NextWord(g, requests[0]);
      IDsFromNode(i.gen, requests[1..]);
      if i.id.Ok? {
        assert InRange(i.gen.last, g.node, i.gen.sequence) && i.id.value == Pack(i.gen.last, g.node, i.gen.sequence);
      }
    }
  }

  /** Two nodes never hand out the same id, whatever their clocks do. */
  lemma NodesNeverCollide(g: Gen, h: Gen, forG: seq<Request>, forH: seq<Request>)
    requires Valid(g) && Valid(h) && g.node != h.node && AllReturn(g, forG) && AllReturn(h, forH)
    ensures forall id :: id in IDs(g, forG) ==> id !in IDs(h, forH)
  {
    IDsFromNode(g, forG);
    IDsFromNode(h, forH);
    forall id | id in IDs(g, forG)
      ensures id !in IDs(h, forH)
    {
      if id in IDs(h, forH) {
        var m, s :| InRange(m, g.node, s) && id == Pack(m, g.node, s);
        var m', s' :| InRange(m', h.node, s') && id == Pack(m', h.node, s');
        PackInjective(m, g.node, s, m', h.node, s');
      }
    }
  }

  /** `count` requests within one millisecond. */
  function Burst(millis: int, count: nat): seq<Request> {
    if count == 0 then [] else [Request(millis, [])] + Burst(millis, count - 1)
  }

  lemma BurstStep(node: int, millis: int, sequence: int)
    requires InRange(millis, node, sequence) && sequence < MAX_SEQUENCE && 0 < millis
    ensures var i := NextID(Gen(node, millis, sequence), Request(millis, []));
            i == Issue(Gen(node, millis, sequence + 1), Ok(Pack(millis, node, sequence + 1)))
  {
    PackUnpacks(millis, node, sequence + 1);
  }

  /** Requests within one millisecond use its sequence numbers in order. */
  lemma {:induction false} BurstIDs(node: int, millis: int, sequence: int, count: nat, rest: seq<Request>)
    requires InRange(millis, node, sequence) && sequence + count <= MAX_SEQUENCE && 0 < millis
    requires AllReturn(Gen(node, millis, sequence + count), rest)
    ensures AllReturn(Gen(node, millis, sequence), Burst(millis, count) + rest)
    ensures var ids := IDs(Gen(node, millis, sequence), Burst(millis, count) + rest);
            && |ids| >= count
            && ids[count..] == IDs(Gen(node, millis, sequence + count), rest)
            && (forall k :: 0 <= k < count ==> ids[k] == Pack(millis, node, sequence + 1 + k))
    decreases count
  {
    hide NextID, Pack, Moves;
    var g := Gen(node, millis, sequence);
    var requests := Burst(millis, count) + rest;
    if count == 0 {
      assert requests == rest;
    } else {
      assert requests[0] == Request(millis, []);
      assert requests[1..] == Burst(millis, count - 1) + rest;
      BurstStep(node, millis, sequence);
      BurstIDs(node, millis, sequence + 1, count - 1, rest);
      BurstHead(g, requests, IDs(Gen(node, millis, sequence + 1), requests[1..]), count);
    }
  }

  lemma BurstHead(g: Gen, requests: seq<Request>, later: seq<int>, count: nat)
    requires Valid(g) && requests != [] && AllReturn(g, requests) && 0 < count <= |later| + 1
    requires later == IDs(Advance(g, requests[0]), requests[1..]) && NextID(g, requests[0]).id.Ok?
    ensures var ids := IDs(g, requests);
            && ids == [NextID(g, requests[0]).id.value] + later
            && ids[count..] == later[count - 1..]
  {
  }

  /**
   * The clock assumption is needed: use up a millisecond, let the clock step back once while the next request
   * waits, return to that millisecond, and an id already handed out comes again.
   */
  lemma FallingClockRepeatsAnID(node: int, millis: int)
    requires 0 <= node <= MAX_NODE && 0 < millis <= MAX_TIMESTAMP
    ensures var requests := [Request(millis, [])] + (Burst(millis, 4095) + [Request(millis, [millis - 1]), Request(millis, [])]);
            && AllReturn(Gen(node, -1, 0), requests)
            && var ids := IDs(Gen(node, -1, 0), requests);
               |ids| == 4097 && ids[4096] == ids[1]
  {
    hide Burst;
    var rest := [Request(millis, [millis - 1]), Request(millis, [])];
    var full := Gen(node, millis, 4095);
    RepeatAfterFall(node, millis);
    var tail := Burst(millis, 4095) + rest;
    var requests := [Request(millis, [])] + tail;
    var start := Gen(node, -1, 0);
    assert requests[0] == Request(millis, []) && requests[1..] == tail;
    assert Advance(start, requests[0]) == Gen(node, millis, 0);
    BurstIDs(node, millis, 0, 4095, rest);
    var later := IDs(Gen(node, millis, 0), tail);
    assert IDs(start, requests) == [Pack(millis, node, 0)] + later;
    assert later[0] == Pack(millis, node, 1);
    assert later[4095..] == IDs(full, rest);
    assert later[4095] == later[4095..][0];
  }

  lemma RepeatAfterFall(node: int, millis: int)
    requires 0 <= node <= MAX_NODE && 0 < millis <= MAX_TIMESTAMP
    ensures var rest := [Request(millis, [millis - 1]), Request(millis, [])];
            && AllReturn(Gen(node, millis, 4095), rest)
            && IDs(Gen(node, millis, 4095), rest) == [Pack(millis, node, 1)]
  {
    var first, second := Request(millis, [millis - 1]), Request(millis, []);
    var full, fallen := Gen(node, millis, 4095), Gen(node, millis, 0);
    assert Moves(first.polls, millis) by { assert first.polls[0] != millis; }
    assert NextID(full, first) == Issue(fallen, Err(ClockBackwards));
    assert NextID(fallen, second).id == Ok(Pack(millis, node, 1));
    assert [first, second][1..] == [second];
    assert [second][1..] == [];
    var last := Advance(fallen, second);
    assert IDs(last, []) == [];
    assert AllReturn(last, []);
    assert AllReturn(fallen, [second]);
    assert IDs(fallen, [second]) == [Pack(millis, node, 1)];
  }

  lemma MovesLater(polls: seq<int>, previous: int)
    requires Moves(polls, previous) && polls[0] == previous
    ensures |polls| > 1 && Moves(polls[1..], previous)
  {
    var i :| 0 <= i < |polls| && polls[i] != previous;
    assert polls[1..][i - 1] == polls[i];
  }

  // ----- What an id tells -----

  /** Waiting ends with the first reading that is not the used-up millisecond; a later one is taken, an earlier one or one
      outside the range is an error. */
  lemma {:induction false} WaitMeans(previous: int, polls: seq<int>) returns (i: nat)
    requires 0 <= previous <= MAX_TIMESTAMP && Moves(polls, previous)
    ensures i < |polls| && polls[i] != previous && forall j :: 0 <= j < i ==> polls[j] == previous
    ensures WaitNext(previous, polls) == if polls[i] < 0 || polls[i] > MAX_TIMESTAMP then Err(OutOfRange)
                                         else if polls[i] < previous then Err(ClockBackwards) else Ok(polls[i])
    decreases |polls|
  {
    if polls[0] == previous {
      assert forall j :: 0 < j < |polls| ==> polls[j] == polls[1..][j - 1];
      i := WaitMeans(previous, polls[1..]);
      i := i + 1;
    } else {
      i := 0;
    }
  }

  /** An id is its millisecond, its node and its number within that millisecond. */
  function Composed(millis: int, node: int, number: int): int { millis * 4_194_304 + node * 4_096 + number }

  /** What a request comes to: a reading out of range or behind the last one is refused and changes nothing; a new
      millisecond starts at number zero, the last one goes on counting, and after number 4095 the request waits. The only id
      never given out is zero. */
  lemma IssueMeans(g: Gen, r: Request)
    requires Valid(g) && Returns(g, r)
    ensures var issue := NextID(g, r);
            if r.first < 0 || r.first > MAX_TIMESTAMP then issue == Issue(g, Err(OutOfRange))
            else if r.first < g.last then issue == Issue(g, Err(ClockBackwards))
            else if r.first > g.last then Given(g, issue, r.first, 0)
            else if g.sequence < 4095 then Given(g, issue, g.last, g.sequence + 1)
            else match WaitNext(g.last, r.polls)
                 case Ok(millis) => Given(g, issue, millis, 0)
                 case Err(e) => issue == Issue(g.(sequence := 0), Err(e))
  {
    if MustWait(g, r) && g.last >= 0 {
      var _ := WaitMeans(g.last, r.polls);
    }
    hide WaitNext;
  }

  /** The generator stands at this millisecond and number, and has given out the id they make. */
  predicate Given(g: Gen, issue: Issue, millis: int, number: int) {
    && issue.gen == Gen(g.node, millis, number)
    && issue.id == (if Composed(millis, g.node, number) == 0 then Err(NonPositive) else Ok(Composed(millis, g.node, number)))
  }
}
