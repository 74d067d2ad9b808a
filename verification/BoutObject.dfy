/** A hosted match as the object the server drives (rust/bt-server/src/bout.rs), and the player
    of its recording (rust/bt-replay/src/lib.rs:529-611). */
module BoutObject {
  import opened Wrappers
  import opened Weapons
  import opened Rng
  import opened Arsenals
  import opened Inputs
  import opened VersusMatch
  import opened BoutLog
  import opened VersusObject

  class HostedMatch {
    const versus: Match
    const seedA: Word
    const seedB: Word
    var tick: nat
    var frames: seq<VersusFrame>
    var ackA: nat
    var ackB: nat

    ghost function Repr(): set<object> { {this} + versus.Repr() }

    ghost predicate Valid()
      reads Repr()
    { versus.Valid() && this !in versus.Repr() }

    function Value(): (b: Bout)
      requires Valid()
      reads Repr()
    { Bout(versus.Value(), tick, seedA, seedB, frames, ackA, ackB) }

    constructor (seedA: Word, seedB: Word)
      ensures Valid() && fresh(Repr()) && Value() == NewBout(seedA, seedB)
    {
      hide NewVersus, Match.Value, Match.Valid;
      var v := new Match(seedA, seedB);
      versus := v;
      this.seedA, this.seedB := seedA, seedB;
      tick, frames, ackA, ackB := 0, [], 0, 0;
    }

    method AckOf(s: Seat) returns (n: nat)
      requires Valid()
      ensures n == Value().Ack(s)
    { n := if s.A? then ackA else ackB; }

    method BarrierUp() returns (up: bool)
      requires Valid()
      ensures up == Value().v.Frozen()
    { up := versus.SomeoneShops(); }

    method SetAck(s: Seat, n: nat)
      requires Valid()
      modifies this`ackA, this`ackB
      ensures Valid() && Value() == old(Value()).WithAck(s, n)
    {
      hide Match.Value, Match.Valid;
      if s.A? { ackA := n; } else { ackB := n; }
    }

    // An action on a side's game, and its frame in the log.
    method Record(s: Seat, i: Input)
      requires Valid()
      modifies Repr()
      ensures Valid() && Value() == Recorded(old(Value()), s, i)
    {
      hide Apply, Match.Value, Match.Valid;
      versus.Act(s, i);
      frames := frames + [VersusFrame(tick % MOD32, s, i)];
    }

    // Whether the input was applied. A fresh legal one is acknowledged in any case.
    method SubmitInput(s: Seat, i: Input, seqNo: nat) returns (applied: bool)
      requires Valid()
      modifies Repr()
      ensures Valid() && Value() == ApplyInput(old(Value()), s, i, seqNo)
      ensures applied == (Fresh(old(Value()), s, i, seqNo) && !Barred(old(Value()), i))
    {
      hide ApplyInput, Fresh, Barred, Recorded, Legal, BazaarInput, Value, Valid, Match.Value, Match.Valid,
        Bout.Ack, Bout.WithAck, Versus.Frozen;
      SubmissionIs(Value(), s, i, seqNo);
      var ack := AckOf(s);
      if !Legal(i) || seqNo <= ack { return false; }
      SetAck(s, seqNo);
      var barrier := BarrierUp();
      if barrier && !BazaarInput(i) { return false; }
      Record(s, i);
      applied := true;
    }

    // The admin grant: each part that lands is recorded, the weapon before the funds.
    method Grant(s: Seat, weapon: Option<WeaponToken>, funds: Option<int>) returns (granted: bool, paid: bool)
      requires Valid()
      modifies Repr()
      ensures Valid()
      ensures Value() == DebugGrant(old(Value()), s, weapon, if funds.Some? then funds.value else 0)
      ensures granted == (weapon.Some? && GrantLands(old(Value()), s, weapon.value))
      ensures paid == (funds.Some? && funds.value != 0)
    {
      hide Match.Value, Match.Valid, Apply, Buy;
      ghost var was := Value();
      granted := false;
      if weapon.Some? { granted := versus.GrantTo(s, weapon.value); }
      paid := funds.Some? && funds.value != 0;
      if paid { versus.Act(s, FundsIn(funds.value)); }
      if granted { frames := frames + [VersusFrame(tick % MOD32, s, GrantIn(weapon.value))]; }
      if paid { frames := frames + [VersusFrame(tick % MOD32, s, FundsIn(funds.value))]; }
    }

    method Rebase(s: Seat)
      requires Valid()
      modifies this`ackA, this`ackB
      ensures Valid() && Value() == ResetAck(old(Value()), s)
    { SetAck(s, 0); }

    method TickBy(dt: int)
      requires Valid()
      modifies Repr()
      ensures Valid() && Value() == BTick(old(Value()), dt)
    {
      hide VTick, Match.Value, Match.Valid;
      versus.TickBy(dt);
      tick := tick + 1;
    }

    method Export(dt: int) returns (r: VersusReplay)
      requires Valid()
      ensures r == ToReplay(Value(), dt)
    { r := VersusReplay(seedA % MOD32, seedB % MOD32, dt, tick % MOD32, frames); }
  }

  lemma SubmissionIs(b: Bout, s: Seat, i: Input, n: nat)
    ensures Fresh(b, s, i, n) == (Legal(i) && n > b.Ack(s))
    ensures Barred(b, i) == (b.WithAck(s, n).v.Frozen() && !BazaarInput(i))
    ensures ApplyInput(b, s, i, n) ==
      if !Fresh(b, s, i, n) then b
      else if Barred(b, i) then b.WithAck(s, n) else Recorded(b.WithAck(s, n), s, i)
  { hide Recorded, Legal, BazaarInput, Versus.Frozen; }

  class VersusReplayPlayer {
    var versus: Match
    const replay: VersusReplay
    var executed: nat
    var cursor: nat

    ghost predicate Valid()
      reads this, versus, versus.Repr()
    { versus.Valid() && this !in versus.Repr() && cursor <= |replay.frames| && executed <= replay.tickCount }

    function Value(): (p: Playback)
      requires Valid()
      reads this, versus, versus.Repr()
    { Playback(versus.Value(), executed, cursor) }

    constructor (r: VersusReplay)
      ensures Valid() && fresh(versus.Repr()) && replay == r && Value() == StartPlayback(r)
    {
      hide NewVersus, Match.Value, Match.Valid;
      var v := new Match(r.seedA, r.seedB);
      versus, replay, executed, cursor := v, r, 0, 0;
    }

    // Every frame stamped with the current tick.
    method ApplyFrames()
      requires Valid()
      modifies this`cursor, versus.Repr()
      ensures Valid() && executed == old(executed)
      ensures (versus.Value(), cursor) == PlayFrames(old(versus.Value()), replay.frames, executed, old(cursor))
    {
      hide Apply, Match.Value, Match.Valid;
      while cursor < |replay.frames| && replay.frames[cursor].stamp == executed
        invariant Valid() && executed == old(executed)
        invariant PlayFrames(versus.Value(), replay.frames, executed, cursor)
               == PlayFrames(old(versus.Value()), replay.frames, executed, old(cursor))
        decreases |replay.frames| - cursor
      {
        versus.Act(replay.frames[cursor].seat, replay.frames[cursor].input);
        cursor := cursor + 1;
      }
    }

    // One tick; false once the recording is exhausted. Both sides' events are thrown away.
    method Step() returns (more: bool)
      requires Valid()
      modifies this`cursor, this`executed, versus.Repr()
      ensures Valid() && Value() == PlayStep(replay, old(Value()))
      ensures more == (old(executed) < replay.tickCount)
      ensures executed == if more then old(executed) + 1 else old(executed)
      ensures !more ==> Value() == old(Value())
    {
      hide VTick, PlayFrames, Match.Value, Match.Valid;
      if executed >= replay.tickCount { return false; }
      ApplyFrames();
      versus.TickBy(replay.dt);
      var fromA := versus.Drain(A);
      var fromB := versus.Drain(B);
      executed := executed + 1;
      more := true;
    }

    method RunToEnd()
      requires Valid()
      modifies this`cursor, this`executed, versus.Repr()
      ensures Valid() && Value() == PlayToEnd(replay, old(Value()))
    {
      hide PlayStep, Match.Value, Match.Valid;
      var more := true;
      while more
        invariant Valid() && PlayToEnd(replay, Value()) == PlayToEnd(replay, old(Value()))
        invariant !more ==> executed >= replay.tickCount
        decreases more, replay.tickCount - executed
      {
        more := Step();
      }
    }

    // On to a tick not yet reached.
    method FastForward(target: nat)
      requires Valid() && target <= replay.tickCount && Value() == PlayedTo(replay, executed)
      modifies this`cursor, this`executed, versus.Repr()
      ensures Valid() && Value() == PlayedTo(replay, if old(executed) < target then target else old(executed))
      ensures versus == old(versus)
    {
      hide PlayStep, Match.Value, Match.Valid;
      while executed < target
        invariant Valid() && Value() == PlayedTo(replay, executed)
        invariant executed <= (if old(executed) < target then target else old(executed))
        invariant executed >= old(executed)
      {
        var more := Step();
      }
    }

    // Both boards built anew from the seeds.
    method Rewind()
      requires Valid()
      modifies this
      ensures Valid() && Value() == PlayedTo(replay, 0) && executed == 0 && fresh(versus.Repr())
    {
      hide NewVersus, Match.Value, Match.Valid;
      var v := new Match(replay.seedA, replay.seedB);
      versus, executed, cursor := v, 0, 0;
    }

    // Wherever playback stood, seeking shows the match as played from the start to there.
    method Seek(target: nat)
      requires Valid() && Value() == PlayedTo(replay, executed)
      modifies this, versus.Repr()
      ensures Valid() && Value() == PlayedTo(replay, if target < replay.tickCount then target else replay.tickCount)
    {
      hide PlayStep, PlayedTo, Match.Value, Match.Valid, Value;
      var goal := if target < replay.tickCount then target else replay.tickCount;
      if goal < executed {
        Rewind();
      }
      FastForward(goal);
    }
  }

  // A recording played from its start for n ticks.
  function PlayedTo(r: VersusReplay, n: nat): (p: Playback)
    ensures p.cursor <= |r.frames|
  { if n == 0 then StartPlayback(r) else PlayStep(r, PlayedTo(r, n - 1)) }
}
