/**
 The wake protocol between the engine and its timer: the engine's `sync_wake_action`
 (rp-node/src/node_engine.rs), a FIFO of wake commands, the timer task (erp-runtime/src/wake/manager.rs) and a
 FIFO of ticks.  No interleaving of the four loses the earliest deadline of a pending request.
 */
module Wake {
  import opened Base
  import opened Models
  import opened Chain
  import opened Engine

  const STARTUP_HEARTBEAT_DELAY_MS: u64 := 1000

  datatype WakeCommand = Schedule(atMs: u64) | Cancel

  function Armed(command: WakeCommand): (r: Option<u64>) {
    match command
    case Schedule(at) => Some(at)
    case Cancel => None
  }

  /** The runtime forwards wake actions to the timer and sends every other action elsewhere. */
  function WakeCommands(acts: seq<Action>): (r: seq<WakeCommand>) {
    if acts == [] then [] else
      WakeCommands(acts[..|acts| - 1]) +
      match acts[|acts| - 1]
      case ScheduleWake(at) => [Schedule(at)]
      case CancelWake => [Cancel]
      case _ => []
  }

  /** The timer task: its alarm, the commands waiting for it, and the ticks it has sent. */
  datatype Timer = Timer(wakeAt: Option<u64>, commands: seq<WakeCommand>, ticks: seq<u64>)

  /** What wakes the timer task's `select`; the task ends when the command channel closes. */
  datatype Wakeup = CommandReady | TimerElapsed(nowMs: u64)

  /** One turn of `run`; an alarm cannot ring when none is set, nor before its time. */
  function Turn(t: Timer, w: Wakeup): (r: Timer) {
    match w
    case CommandReady =>
      if t.commands == [] then t else t.(wakeAt := Armed(t.commands[0]), commands := t.commands[1..])
    case TimerElapsed(now) =>
      if t.wakeAt.Some? && t.wakeAt.value <= now then t.(wakeAt := None, ticks := t.ticks + [now]) else t
  }

  function Turns(t: Timer, ws: seq<Wakeup>): (r: Timer) {
    if ws == [] then t else Turn(Turns(t, ws[..|ws| - 1]), ws[|ws| - 1])
  }

  class WakeManager {
    var wakeAt: Option<u64>
    var commands: seq<WakeCommand>
    var ticks: seq<u64>

    function View(): (r: Timer)
      reads this
    {
      Timer(wakeAt, commands, ticks)
    }

    /** A heartbeat is armed at start. */
    constructor (nowMs: u64)
      ensures View() == Timer(Some(SaturatingAdd(nowMs, STARTUP_HEARTBEAT_DELAY_MS)), [], [])
    {
      wakeAt := Some(SaturatingAdd(nowMs, STARTUP_HEARTBEAT_DELAY_MS));
      commands := [];
      ticks := [];
    }

    method HandleCommand(command: WakeCommand)
      modifies this`wakeAt
      ensures wakeAt == Armed(command)
    {
      match command {
        case Schedule(at) => wakeAt := Some(at);
        case Cancel => wakeAt := None;
      }
    }

    method EmitTick(nowMs: u64)
      modifies this`ticks
      ensures ticks == old(ticks) + [nowMs]
    {
      ticks := ticks + [nowMs];
    }

    /** The loop of `run`, over the wake-ups its `select` sees before the command channel closes. */
    method Run(wakeups: seq<Wakeup>)
      modifies this
      ensures View() == Turns(old(View()), wakeups)
    {
      for i := 0 to |wakeups|
        invariant View() == Turns(old(View()), wakeups[..i])
      {
        assert wakeups[..i + 1][..i] == wakeups[..i];
        match wakeups[i] {
          case CommandReady =>
            if commands != [] {
              var command := commands[0];
              commands := commands[1..];
              HandleCommand(command);
            }
          case TimerElapsed(now) =>
            if wakeAt.Some? && wakeAt.value <= now {
              wakeAt := None;
              EmitTick(now);
            }
        }
      }
      assert wakeups[..|wakeups|] == wakeups;
    }
  }

  // ---------------------------------------------------------------- the whole protocol

  datatype Protocol = Protocol(engine: Engine, timer: Timer)

  /** One move of the interleaving. */
  datatype Move =
    | EngineInput(input: Input)
    | EngineTick
    | TimerTurn(wakeup: Wakeup)

  function Feed(c: Crypto, s: Protocol, i: Input): (r: Protocol)
    requires Live(s.engine)
    ensures Live(r.engine)
  {
    var (e, acts) := Step(c, s.engine, i);
    Protocol(e, s.timer.(commands := s.timer.commands + WakeCommands(acts)))
  }

  function Advance(c: Crypto, s: Protocol, m: Move): (r: Protocol)
    requires Live(s.engine)
    ensures Live(r.engine)
  {
    match m
    case EngineInput(i) => Feed(c, s, i)
    case EngineTick =>
      if s.timer.ticks == [] then s
      else Feed(c, s.(timer := s.timer.(ticks := s.timer.ticks[1..])), Tick(s.timer.ticks[0]))
    case TimerTurn(w) => s.(timer := Turn(s.timer, w))
  }

  function Interleave(c: Crypto, s: Protocol, ms: seq<Move>): (r: Protocol)
    requires Live(s.engine)
    ensures Live(r.engine)
  {
    if ms == [] then s else Advance(c, Interleave(c, s, ms[..|ms| - 1]), ms[|ms| - 1])
  }

  // ---------------------------------------------------------------- the invariant

  /** The alarm once every waiting command is handled. */
  function Pending(t: Timer): (r: Option<u64>) {
    if t.commands == [] then t.wakeAt else Armed(t.commands[|t.commands| - 1])
  }

  /** The deadline `d` is armed or is the last waiting command, or a tick at or after it is under way. */
  ghost predicate Covered(t: Timer, d: u64) {
    Pending(t) == Some(d) || exists i :: 0 <= i < |t.ticks| && t.ticks[i] >= d
  }

  ghost predicate WakeOk(s: Protocol) {
    && s.engine.wakeAtMs == EarliestDeadline(s.engine.requests)
    && (s.engine.wakeAtMs.Some? ==> Covered(s.timer, s.engine.wakeAtMs.value))
  }

  predicate NoWake(acts: seq<Action>) {
    forall i :: 0 <= i < |acts| ==> !acts[i].ScheduleWake? && !acts[i].CancelWake?
  }

  lemma {:induction false} NoWakeCommands(acts: seq<Action>)
    requires NoWake(acts)
    ensures WakeCommands(acts) == []
    decreases |acts|
  {
    if acts != [] { NoWakeCommands(acts[..|acts| - 1]); }
  }

  lemma OneWakeCommand(acts: seq<Action>, last: Action)
    requires NoWake(acts)
    ensures last.ScheduleWake? ==> WakeCommands(acts + [last]) == [Schedule(last.atMs)]
    ensures last.CancelWake? ==> WakeCommands(acts + [last]) == [Cancel]
  {
    NoWakeCommands(acts);
    assert (acts + [last])[..|acts|] == acts;
  }

  // Nothing before `sync_wake_action` speaks to the timer or touches the recorded wake-up.

  lemma {:induction false} ImportParkedSilent(c: Crypto, e: Engine, parent: Hash, ps: Ledger.State)
    requires Live(e)
    ensures NoWake(ImportParked(c, e, parent, ps).1) && ImportParked(c, e, parent, ps).0.wakeAtMs == e.wakeAtMs
    decreases |e.parked|, 0, 0
  {
    hide AddBlock, ImportAll;
    if parent in e.parked {
      assert (e.parked - {parent}).Keys == e.parked.Keys - {parent};
      ImportAllSilent(c, e.(parked := e.parked - {parent}), e.parked[parent], ps);
    }
  }

  lemma {:induction false} ImportAllSilent(c: Crypto, e: Engine, blocks: seq<ParkedBlock>, ps: Ledger.State)
    requires Live(e)
    ensures NoWake(ImportAll(c, e, blocks, ps).1) && ImportAll(c, e, blocks, ps).0.wakeAtMs == e.wakeAtMs
    decreases |e.parked|, 2, |blocks|
  {
    hide ImportOne;
    if blocks != [] {
      ImportOneSilent(c, e, blocks[0].block, ps);
      ImportAllSilent(c, ImportOne(c, e, blocks[0].block, ps).0, blocks[1..], ps);
    }
  }

  lemma {:induction false} ImportOneSilent(c: Crypto, e: Engine, b: Block, ps: Ledger.State)
    requires Live(e)
    ensures NoWake(ImportOne(c, e, b, ps).1) && ImportOne(c, e, b, ps).0.wakeAtMs == e.wakeAtMs
    decreases |e.parked|, 1, 0
  {
    hide AddBlock, BlockHash, ImportParked, Snapshot.StateBytes;
    var r := AddBlock(c, e.chain, b, ps);
    if r.Ok? && r.value.1.becameHead {
      ImportParkedSilent(c, e.(chain := r.value.0), BlockHash(c, b), r.value.1.nextState);
    }
  }

  lemma IngestSilent(c: Crypto, e: Engine, peer: PeerId, b: Block)
    requires Live(e)
    ensures NoWake(IngestBlock(c, e, peer, b).1) && IngestBlock(c, e, peer, b).0.wakeAtMs == e.wakeAtMs
  {
    hide AddBlock, BlockHash, ImportParked, Snapshot.StateBytes;
    var r := AddBlock(c, e.chain, b, e.chain.state);
    if r.Ok? && r.value.1.becameHead {
      ImportParkedSilent(c, e.(chain := r.value.0), BlockHash(c, b), r.value.1.nextState);
    }
  }

  lemma {:induction false} IngestAllSilent(c: Crypto, e: Engine, peer: PeerId, blocks: seq<Block>)
    requires Live(e)
    ensures NoWake(IngestAll(c, e, peer, blocks).1) && IngestAll(c, e, peer, blocks).0.wakeAtMs == e.wakeAtMs
    decreases |blocks|
  {
    hide IngestBlock;
    if blocks != [] {
      var n := |blocks| - 1;
      IngestAllSilent(c, e, peer, blocks[..n]);
      IngestSilent(c, IngestAll(c, e, peer, blocks[..n]).0, peer, blocks[n]);
    }
  }

  lemma {:induction false} ContinueAllSilent(e: Engine, done: seq<PendingRequest>, next: u64)
    ensures NoWake(ContinueAll(e, done, next).1) && ContinueAll(e, done, next).0.wakeAtMs == e.wakeAtMs
    decreases |done|
  {
    if done != [] { ContinueAllSilent(e, done[..|done| - 1], next); }
  }

  lemma MessageSilent(c: Crypto, e: Engine, peer: PeerId, m: Message)
    requires Live(e)
    ensures NoWake(OnMessage(c, e, peer, m).1) && OnMessage(c, e, peer, m).0.wakeAtMs == e.wakeAtMs
  {
    hide IngestBlock, IngestAll, ContinueAll, Respond, AddTransaction, RequestsOf, RequestsNotOf;
    match m {
      case AnnounceBlock(b) => IngestSilent(c, e, peer, b);
      case SyncResponse(blocks, _, next) =>
        var e0 := e.(requests := RequestsNotOf(e.requests, peer));
        IngestAllSilent(c, e0, peer, blocks);
        if next.Some? { ContinueAllSilent(IngestAll(c, e0, peer, blocks).0, RequestsOf(e.requests, peer), next.value); }
      case _ =>
    }
  }

  lemma ReactSilent(c: Crypto, e: Engine, i: Input)
    requires Live(e)
    ensures NoWake(React(c, e, i).1) && React(c, e, i).0.wakeAtMs == e.wakeAtMs
  {
    hide OnMessage, ImportParked, AddTransaction, RequestsNotOf, Expire, Snapshot.StateFromBytes;
    match i {
      case FrameReceived(peer, Some(m)) => MessageSilent(c, e, peer, m);
      case StorageLoaded(h, Some(bytes)) =>
        var s := Snapshot.StateFromBytes(bytes);
        if s.Ok? { ImportParkedSilent(c, e, h, s.value); }
      case _ =>
    }
  }

  /** A step sends the timer one command exactly when the earliest deadline changed, and that command arms it. */
  lemma StepWake(c: Crypto, e: Engine, i: Input)
    requires Live(e)
    ensures var (e', acts) := Step(c, e, i);
            && e'.wakeAtMs == EarliestDeadline(e'.requests)
            && WakeCommands(acts) == (if e'.wakeAtMs == e.wakeAtMs then []
                                      else if e'.wakeAtMs.Some? then [Schedule(e'.wakeAtMs.value)] else [Cancel])
  {
    hide React, EarliestDeadline;
    ReactSilent(c, e, i);
    var (e1, acts) := React(c, e, i);
    var (e2, wake) := SyncWake(e1);
    if wake == [] {
      assert acts + wake == acts;
      NoWakeCommands(acts);
    } else {
      OneWakeCommand(acts, wake[0]);
    }
  }

  // ---------------------------------------------------------------- no lost wake

  /** Feeding the engine keeps the invariant, if the deadline it recorded is covered or about to be expired. */
  lemma FeedOk(c: Crypto, s: Protocol, i: Input)
    requires Live(s.engine)
    requires s.engine.wakeAtMs.Some? ==>
               Covered(s.timer, s.engine.wakeAtMs.value) || (i.Tick? && i.nowMs >= s.engine.wakeAtMs.value)
    ensures WakeOk(Feed(c, s, i))
  {
    hide Step, EarliestDeadline;
    StepWake(c, s.engine, i);
    if i.Tick? { TickExpires(c, s.engine, i.nowMs); }
  }

  /** After a tick every pending deadline is later than it. */
  lemma TickExpires(c: Crypto, e: Engine, now: u64)
    requires Live(e)
    ensures var e' := Step(c, e, Tick(now)).0;
            && e'.requests == Expire(e.requests, now)
            && (e'.wakeAtMs.Some? ==> e'.wakeAtMs.value > now)
  {
    ExpireMembers(e.requests, now);
    var d := EarliestDeadline(Expire(e.requests, now));
  }

  lemma AdvanceOk(c: Crypto, s: Protocol, m: Move)
    requires Live(s.engine) && WakeOk(s)
    ensures WakeOk(Advance(c, s, m))
  {
    hide Feed, EarliestDeadline;
    match m {
      case EngineInput(i) => FeedOk(c, s, i);
      case EngineTick =>
        if s.timer.ticks != [] {
          var s1 := s.(timer := s.timer.(ticks := s.timer.ticks[1..]));
          if s.engine.wakeAtMs.Some? { TickTaken(s.timer, s.engine.wakeAtMs.value); }
          FeedOk(c, s1, Tick(s.timer.ticks[0]));
        }
      case TimerTurn(w) =>
        if s.engine.wakeAtMs.Some? { TurnCovers(s.timer, w, s.engine.wakeAtMs.value); }
    }
  }

  lemma TickTaken(t: Timer, d: u64)
    requires Covered(t, d) && t.ticks != []
    ensures Covered(t.(ticks := t.ticks[1..]), d) || t.ticks[0] >= d
  {
    if Pending(t) != Some(d) && t.ticks[0] < d {
      var i :| 0 <= i < |t.ticks| && t.ticks[i] >= d;
      assert t.ticks[1..][i - 1] >= d;
    }
  }

  lemma TurnCovers(t: Timer, w: Wakeup, d: u64)
    requires Covered(t, d)
    ensures Covered(Turn(t, w), d)
  {
    var t' := Turn(t, w);
    if Pending(t) == Some(d) {
      if t'.ticks != t.ticks { assert t'.ticks[|t.ticks|] >= d || Pending(t') == Some(d); }
    } else {
      var i :| 0 <= i < |t.ticks| && t.ticks[i] >= d;
      assert t'.ticks[i] >= d;
    }
  }

  /** No lost wake: whatever the interleaving, the earliest pending deadline stays covered. */
  lemma {:induction false} NoLostWake(c: Crypto, s: Protocol, ms: seq<Move>)
    requires Live(s.engine) && s.engine.requests == [] && s.engine.wakeAtMs == None
    ensures WakeOk(Interleave(c, s, ms))
    decreases |ms|
  {
    hide Advance, EarliestDeadline, Covered;
    if ms == [] {
      assert EarliestDeadline([]) == None;
    } else {
      NoLostWake(c, s, ms[..|ms| - 1]);
      AdvanceOk(c, Interleave(c, s, ms[..|ms| - 1]), ms[|ms| - 1]);
    }
  }

  // ---------------------------------------------------------------- every deadline is met

  /** Only the timer task and the delivery of its ticks move. */
  predicate NoInput(ms: seq<Move>) {
    forall i :: 0 <= i < |ms| ==> !ms[i].EngineInput?
  }

  lemma {:induction false} InterleaveConcat(c: Crypto, s: Protocol, ms: seq<Move>, more: seq<Move>)
    requires Live(s.engine)
    ensures Interleave(c, s, ms + more) == Interleave(c, Interleave(c, s, ms), more)
    decreases |more|
  {
    hide Advance;
    if more == [] {
      assert ms + more == ms;
    } else {
      var n := |more| - 1;
      assert (ms + more)[..|ms| + n] == ms + more[..n];
      InterleaveConcat(c, s, ms, more[..n]);
    }
  }

  lemma InterleaveOne(c: Crypto, s: Protocol, m: Move)
    requires Live(s.engine)
    ensures Interleave(c, s, [m]) == Advance(c, s, m)
  {
    hide Advance;
    assert [m][..0] == [];
    assert Interleave(c, s, []) == s;
  }

  /** Handling every waiting command arms the alarm of the last one. */
  lemma {:induction false} HandleAll(c: Crypto, s: Protocol) returns (ms: seq<Move>)
    requires Live(s.engine)
    ensures NoInput(ms) && Interleave(c, s, ms) == s.(timer := Timer(Pending(s.timer), [], s.timer.ticks))
    decreases |s.timer.commands|
  {
    hide Feed;
    ms := [];
    if s.timer.commands != [] {
      var first := TimerTurn(CommandReady);
      InterleaveOne(c, s, first);
      var rest := HandleAll(c, Advance(c, s, first));
      ms := [first] + rest;
      InterleaveConcat(c, s, [first], rest);
    }
  }

  ghost predicate Outlives(q: PendingRequest, ticks: seq<u64>) {
    forall i :: 0 <= i < |ticks| ==> ticks[i] < q.deadlineMs
  }

  /** Delivering every tick leaves exactly the requests whose deadline is later than all of them. */
  lemma {:induction false} DeliverAll(c: Crypto, s: Protocol) returns (ms: seq<Move>)
    requires Live(s.engine)
    ensures NoInput(ms)
    ensures forall q :: q in Interleave(c, s, ms).engine.requests <==> q in s.engine.requests && Outlives(q, s.timer.ticks)
    decreases |s.timer.ticks|
  {
    hide Advance;
    ms := [];
    var ticks := s.timer.ticks;
    if ticks != [] {
      InterleaveOne(c, s, EngineTick);
      var s1 := Advance(c, s, EngineTick);
      AdvanceTick(c, s);
      var rest := DeliverAll(c, s1);
      ms := [EngineTick] + rest;
      InterleaveConcat(c, s, [EngineTick], rest);
      forall q ensures Outlives(q, ticks) <==> Outlives(q, ticks[1..]) && ticks[0] < q.deadlineMs {
        assert ticks == [ticks[0]] + ticks[1..];
      }
    }
  }

  lemma AdvanceTick(c: Crypto, s: Protocol)
    requires Live(s.engine) && s.timer.ticks != []
    ensures var s' := Advance(c, s, EngineTick);
            && s'.timer.ticks == s.timer.ticks[1..]
            && (forall q :: q in s'.engine.requests <==> q in s.engine.requests && s.timer.ticks[0] < q.deadlineMs)
  {
    hide Step, EarliestDeadline;
    TickExpires(c, s.engine, s.timer.ticks[0]);
    ExpireMembers(s.engine.requests, s.timer.ticks[0]);
  }

  /** Deadlines can be met: from every reachable state, without any further input, the timer and its ticks bring the
      engine past its earliest deadline at any time `now` at or after it, and drop no request that is later than every tick. */
  lemma DeadlineMet(c: Crypto, s: Protocol, now: u64) returns (ms: seq<Move>)
    requires Live(s.engine) && WakeOk(s)
    requires s.engine.wakeAtMs.Some? && s.engine.wakeAtMs.value <= now
    ensures NoInput(ms)
    ensures forall q :: q in Interleave(c, s, ms).engine.requests ==>
              q in s.engine.requests && q.deadlineMs > s.engine.wakeAtMs.value
    ensures forall q :: q in s.engine.requests && q.deadlineMs > now && Outlives(q, s.timer.ticks) ==>
              q in Interleave(c, s, ms).engine.requests
  {
    hide Interleave, EarliestDeadline;
    var d := s.engine.wakeAtMs.value;
    var handle := HandleAll(c, s);
    var s1 := Interleave(c, s, handle);
    var ring := TimerTurn(TimerElapsed(now));
    InterleaveOne(c, s1, ring);
    var s2 := Advance(c, s1, ring);
    TurnCovers(s1.timer, ring.wakeup, d);
    var deliver := DeliverAll(c, s2);
    InterleaveConcat(c, s, handle, [ring]);
    InterleaveConcat(c, s, handle + [ring], deliver);
    ms := handle + [ring] + deliver;
    assert exists i :: 0 <= i < |s2.timer.ticks| && s2.timer.ticks[i] >= d;
  }

  // ---------------------------------------------------------------- every fair schedule meets the deadline

  /** Some pending request is due by `d`. */
  predicate Late(s: Protocol, d: u64) { s.engine.wakeAtMs.Some? && s.engine.wakeAtMs.value <= d }

  lemma NotLate(s: Protocol, d: u64)
    requires WakeOk(s) && !Late(s, d)
    ensures forall q :: q in s.engine.requests ==> q.deadlineMs > d
  {
    hide EarliestDeadline, Covered;
  }

  /** Late from beginning to end. */
  ghost predicate AlwaysLate(c: Crypto, s: Protocol, ms: seq<Move>, d: u64)
    requires Live(s.engine)
  {
    Late(Interleave(c, s, ms), d) && (ms != [] ==> AlwaysLate(c, s, ms[..|ms| - 1], d))
  }

  /** The time is past `d`: every alarm rings at or after it. */
  predicate Past(ms: seq<Move>, d: u64) {
    forall i :: 0 <= i < |ms| && ms[i].TimerTurn? && ms[i].wakeup.TimerElapsed? ==> ms[i].wakeup.nowMs >= d
  }

  function CountTicks(ms: seq<Move>): (r: nat) {
    if ms == [] then 0 else CountTicks(ms[..|ms| - 1]) + if ms[|ms| - 1].EngineTick? then 1 else 0
  }

  function CountCommands(ms: seq<Move>): (r: nat) {
    if ms == [] then 0 else CountCommands(ms[..|ms| - 1]) + if ms[|ms| - 1] == TimerTurn(CommandReady) then 1 else 0
  }

  lemma {:induction false} InterleaveOk(c: Crypto, s: Protocol, ms: seq<Move>)
    requires Live(s.engine) && WakeOk(s)
    ensures WakeOk(Interleave(c, s, ms))
    decreases |ms|
  {
    hide Advance, WakeOk;
    if ms != [] {
      InterleaveOk(c, s, ms[..|ms| - 1]);
      AdvanceOk(c, Interleave(c, s, ms[..|ms| - 1]), ms[|ms| - 1]);
    }
  }

  /** From tick `m` on, every tick under way is past `d`. */
  ghost predicate TicksFrom(t: Timer, d: u64, m: nat) {
    m <= |t.ticks| && forall i :: m <= i < |t.ticks| ==> t.ticks[i] >= d
  }

  /** A delivered tick past `d` would end the lateness. */
  lemma TickEnds(c: Crypto, s: Protocol, d: u64)
    requires Live(s.engine) && s.timer.ticks != [] && s.timer.ticks[0] >= d
    ensures !Late(Advance(c, s, EngineTick), d)
  {
    hide Step, EarliestDeadline;
    TickExpires(c, s.engine, s.timer.ticks[0]);
  }

  lemma TickMove(c: Crypto, s: Protocol, m: Move, d: u64, k: nat)
    requires Live(s.engine) && Past([m], d) && Late(Advance(c, s, m), d) && TicksFrom(s.timer, d, k)
    ensures TicksFrom(Advance(c, s, m).timer, d, if m.EngineTick? && k > 0 then k - 1 else k)
  {
    hide Step;
    assert [m][0] == m;
    if m.EngineTick? && s.timer.ticks != [] && k == 0 { TickEnds(c, s, d); }
  }

  lemma PastSnoc(ms: seq<Move>, d: u64)
    requires ms != [] && Past(ms, d)
    ensures Past(ms[..|ms| - 1], d) && Past([ms[|ms| - 1]], d)
  {
  }

  lemma {:induction false} TickMoves(c: Crypto, s: Protocol, ms: seq<Move>, d: u64, k: nat)
    requires Live(s.engine) && Past(ms, d) && AlwaysLate(c, s, ms, d) && TicksFrom(s.timer, d, k)
    ensures TicksFrom(Interleave(c, s, ms).timer, d, if k <= CountTicks(ms) then 0 else k - CountTicks(ms))
    decreases |ms|
  {
    hide Advance, TicksFrom, Past;
    if ms != [] {
      var n := |ms| - 1;
      PastSnoc(ms, d);
      TickMoves(c, s, ms[..n], d, k);
      TickMove(c, Interleave(c, s, ms[..n]), ms[n], d, if k <= CountTicks(ms[..n]) then 0 else k - CountTicks(ms[..n]));
    }
  }

  /** The alarm, then the waiting commands: from place `n` of that list on, every one arms a time by `d`. */
  ghost predicate ArmedFrom(t: Timer, d: u64, n: nat) {
    && n <= |t.commands|
    && (n == 0 ==> t.wakeAt.Some? && t.wakeAt.value <= d)
    && (forall i :: 0 <= i < |t.commands| && n - 1 <= i ==> t.commands[i].Schedule? && t.commands[i].atMs <= d)
  }

  /** Ticks under way are past `d`; if there are none, the alarm by `d` is at most `n` commands away. */
  ghost predicate Ready(t: Timer, d: u64, n: nat) {
    TicksFrom(t, d, 0) && (t.ticks != [] || ArmedFrom(t, d, n))
  }

  lemma ReadyAtFirst(s: Protocol, d: u64)
    requires WakeOk(s) && Late(s, d) && TicksFrom(s.timer, d, 0)
    ensures Ready(s.timer, d, |s.timer.commands|)
  {
    hide EarliestDeadline;
  }

  lemma TurnReady(t: Timer, w: Wakeup, d: u64, n: nat)
    requires Ready(t, d, n) && (w.TimerElapsed? ==> w.nowMs >= d)
    ensures Ready(Turn(t, w), d, if w.CommandReady? && n > 0 then n - 1 else n)
    ensures w.TimerElapsed? && n == 0 ==> Turn(t, w).ticks != []
  {
  }

  lemma FeedReady(c: Crypto, s: Protocol, i: Input, d: u64, n: nat)
    requires Live(s.engine) && Ready(s.timer, d, n) && Late(Feed(c, s, i), d)
    ensures Ready(Feed(c, s, i).timer, d, n)
  {
    hide Step, EarliestDeadline;
    StepWake(c, s.engine, i);
  }

  lemma ReadyMove(c: Crypto, s: Protocol, m: Move, d: u64, n: nat)
    requires Live(s.engine) && Past([m], d) && Late(Advance(c, s, m), d) && Ready(s.timer, d, n)
    ensures Ready(Advance(c, s, m).timer, d, if m == TimerTurn(CommandReady) && n > 0 then n - 1 else n)
    ensures m.EngineTick? ==> s.timer.ticks == []
  {
    hide Feed, ArmedFrom;
    assert [m][0] == m;
    match m {
      case EngineInput(i) => FeedReady(c, s, i, d, n);
      case EngineTick => if s.timer.ticks != [] { TickEnds(c, s, d); }
      case TimerTurn(w) => TurnReady(s.timer, w, d, n);
    }
  }

  lemma {:induction false} ReadyMoves(c: Crypto, s: Protocol, ms: seq<Move>, d: u64, n: nat)
    requires Live(s.engine) && Past(ms, d) && AlwaysLate(c, s, ms, d) && Ready(s.timer, d, n)
    ensures Ready(Interleave(c, s, ms).timer, d, if n <= CountCommands(ms) then 0 else n - CountCommands(ms))
    decreases |ms|
  {
    hide Advance, Ready, Past;
    if ms != [] {
      var k := |ms| - 1;
      PastSnoc(ms, d);
      ReadyMoves(c, s, ms[..k], d, n);
      ReadyMove(c, Interleave(c, s, ms[..k]), ms[k], d, if n <= CountCommands(ms[..k]) then 0 else n - CountCommands(ms[..k]));
    }
  }

  /** With a tick past `d` under way, no tick can be delivered without ending the lateness. */
  lemma {:induction false} NoDelivery(c: Crypto, s: Protocol, ms: seq<Move>, d: u64)
    requires Live(s.engine) && Past(ms, d) && AlwaysLate(c, s, ms, d) && TicksFrom(s.timer, d, 0) && s.timer.ticks != []
    ensures CountTicks(ms) == 0
    ensures TicksFrom(Interleave(c, s, ms).timer, d, 0) && Interleave(c, s, ms).timer.ticks != []
    decreases |ms|
  {
    hide Advance, Past;
    if ms != [] {
      var n := |ms| - 1;
      PastSnoc(ms, d);
      NoDelivery(c, s, ms[..n], d);
      var s1 := Interleave(c, s, ms[..n]);
      TickMove(c, s1, ms[n], d, 0);
      if ms[n].EngineTick? { TickEnds(c, s1, d); } else { TicksStay(c, s1, ms[n]); }
    }
  }

  lemma TicksStay(c: Crypto, s: Protocol, m: Move)
    requires Live(s.engine) && !m.EngineTick? && s.timer.ticks != []
    ensures Advance(c, s, m).timer.ticks != []
  {
    hide Step;
  }

  lemma {:induction false} AlwaysLateSplit(c: Crypto, s: Protocol, ms: seq<Move>, more: seq<Move>, d: u64)
    requires Live(s.engine) && AlwaysLate(c, s, ms + more, d)
    ensures AlwaysLate(c, s, ms, d) && AlwaysLate(c, Interleave(c, s, ms), more, d)
    decreases |more|
  {
    hide Late, Advance;
    InterleaveConcat(c, s, ms, more);
    if more == [] {
      assert ms + more == ms;
    } else {
      var n := |more| - 1;
      assert (ms + more)[..|ms| + n] == ms + more[..n];
      AlwaysLateSplit(c, s, ms, more[..n], d);
    }
  }

  lemma {:induction false} FirstNotLate(c: Crypto, s: Protocol, ms: seq<Move>, d: u64) returns (k: nat)
    requires Live(s.engine) && WakeOk(s) && !AlwaysLate(c, s, ms, d)
    ensures k <= |ms| && forall q :: q in Interleave(c, s, ms[..k]).engine.requests ==> q.deadlineMs > d
    decreases |ms|
  {
    hide Interleave, Late, WakeOk;
    k := |ms|;
    assert ms[..k] == ms;
    if !Late(Interleave(c, s, ms), d) {
      InterleaveOk(c, s, ms);
      NotLate(Interleave(c, s, ms), d);
    } else {
      k := FirstNotLate(c, s, ms[..|ms| - 1], d);
      assert ms[..|ms| - 1][..k] == ms[..k];
    }
  }

  /** A fair stretch of any schedule once the time is past `d`: the ticks under way are delivered, then the waiting commands
      are handled, then the alarm is looked at, then a tick is delivered.  Anything else may happen in between, further
      inputs, requests, commands and alarms included. */
  ghost predicate Fair(c: Crypto, s: Protocol, d: u64, m1: seq<Move>, m2: seq<Move>, now: u64, m3: seq<Move>)
    requires Live(s.engine)
  {
    && now >= d && Past(m1, d) && Past(m2, d) && Past(m3, d)
    && CountTicks(m1) >= |s.timer.ticks|
    && CountCommands(m2) >= |Interleave(c, s, m1).timer.commands|
    && CountTicks(m3) >= 1
  }

  /** Deadlines are met by every fair schedule: at some moment of it no request due by `d` is pending. */
  lemma DeadlineFair(c: Crypto, s: Protocol, d: u64, m1: seq<Move>, m2: seq<Move>, now: u64, m3: seq<Move>) returns (k: nat)
    requires Live(s.engine) && WakeOk(s) && Fair(c, s, d, m1, m2, now, m3)
    ensures var ms := m1 + (m2 + ([TimerTurn(TimerElapsed(now))] + m3));
            k <= |ms| && forall q :: q in Interleave(c, s, ms[..k]).engine.requests ==> q.deadlineMs > d
  {
    hide AlwaysLate, WakeOk, Past, Interleave, Covered;
    var ring := [TimerTurn(TimerElapsed(now))];
    var ms := m1 + (m2 + (ring + m3));
    if AlwaysLate(c, s, ms, d) {
      NeverAlwaysLate(c, s, d, m1, m2, now, m3);
    }
    k := FirstNotLate(c, s, ms, d);
  }

  lemma NeverAlwaysLate(c: Crypto, s: Protocol, d: u64, m1: seq<Move>, m2: seq<Move>, now: u64, m3: seq<Move>)
    requires Live(s.engine) && WakeOk(s) && Fair(c, s, d, m1, m2, now, m3)
    ensures !AlwaysLate(c, s, m1 + (m2 + ([TimerTurn(TimerElapsed(now))] + m3)), d)
  {
    hide AlwaysLate, WakeOk, Past, Interleave, Covered, ArmedFrom;
    var ring := [TimerTurn(TimerElapsed(now))];
    if AlwaysLate(c, s, m1 + (m2 + (ring + m3)), d) {
      AlwaysLateSplit(c, s, m1, m2 + (ring + m3), d);
      var s1 := Interleave(c, s, m1);
      TickMoves(c, s, m1, d, |s.timer.ticks|);
      InterleaveOk(c, s, m1);
      AlwaysLateSplit(c, s1, m2, ring + m3, d);
      LateStart(c, s1, m2, d);
      ReadyAtFirst(s1, d);
      ReadyMoves(c, s1, m2, d, |s1.timer.commands|);
      var s2 := Interleave(c, s1, m2);
      AlwaysLateSplit(c, s2, ring, m3, d);
      InterleaveOne(c, s2, ring[0]);
      TurnReady(s2.timer, TimerElapsed(now), d, 0);
      NoDelivery(c, Interleave(c, s2, ring), m3, d);
    }
  }

  lemma {:induction false} LateStart(c: Crypto, s: Protocol, ms: seq<Move>, d: u64)
    requires Live(s.engine) && AlwaysLate(c, s, ms, d)
    ensures Late(s, d)
    decreases |ms|
  {
    hide Late;
    if ms != [] { LateStart(c, s, ms[..|ms| - 1], d); }
  }
}
