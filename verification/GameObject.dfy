/** One player's game as the object the host drives (rust/bt-core/src/game.rs). Every method is
    proved against what the step computes on the game's value. */
module GameObject {
  import opened Wrappers
  import opened Weapons
  import opened Rng
  import opened Boards
  import opened Pieces
  import opened PieceStream
  import opened Arsenals
  import opened Engine
  import opened Inputs
  import opened BankObject
  import opened StreamObject
  import opened FieldObject
  import PieceMoves
  import Keyframes
  import opened CursorObject

  class Game {
    const board: PlayField
    const pieces: PieceManager
    const rng: Generator
    const arsenal: Bank

    // The flat fields of the original, in the groups the value has; the two mirrors of the
    // opponent's score and funds and the event queue stand outside the lockstep state.
    var tally: Tally
    var motion: Motion
    var frame: Frame
    var curses: Curses
    var paused: bool
    var lockSeq: int
    var lockHash: int
    var opScore: int
    var opFunds: int
    var events: seq<GameEvent>

    ghost function Repr(): set<object>
    { {this, board, pieces, pieces.keep, rng, arsenal.rep, arsenal.quantity} }

    ghost predicate Apart()
    { arsenal.Valid() && pieces.Sized() && (pieces.keep as object) != (arsenal.quantity as object) }

    ghost predicate Valid()
      reads Repr()
    { Apart() && Live(pieces.keep[..]) && board.newFill == [] }

    // The lockstep state.
    function State(): (g: RawSim)
      requires Apart()
      reads Repr()
    {
      Sim(board.Value(), pieces.Value(), rng.state, tally, motion, frame, curses, arsenal.Value(), paused, lockSeq,
        lockHash)
    }

    // The whole game: the lockstep state, the display mirrors and the event queue.
    function Full(): (p: Player)
      requires Valid()
      reads Repr()
    { Player(State(), opScore, opFunds, events) }

    // A game with defaults and no piece yet.
    constructor (seed: Word)
      ensures Valid() && fresh(Repr()) && Full() == Player(Blank(Seeded(seed)), 0, 0, [])
    {
      board := new PlayField(false);
      pieces := new PieceManager();
      rng := new Generator(seed);
      arsenal := new Bank();
      tally, motion, frame := Tally(0, 0, 0, 0, false, 20), BLANK_MOTION, DEFAULT_FRAME;
      curses := Curses(NoFlags(), NoDurations(), [], None);
      paused, lockSeq, lockHash, opScore, opFunds, events := false, 0, 0, 0, 0, [];
    }

    // A new game: the defaults, then the first piece.
    static method Start(seed: Word) returns (g: Game)
      ensures fresh(g.Repr()) && g.Valid() && g.Full() == NewPlayer(seed)
    {
      hide Spawn, Blank;
      g := new Game(seed);
      g.SpawnNext();
      assert [] + Spawn(Blank(Seeded(seed))).ev == Spawn(Blank(Seeded(seed))).ev;
    }

    // ----- spawning and falling -----

    method SpawnNext()
      requires Valid()
      modifies this, pieces, rng
      ensures Valid() && Full() == Advance(old(Full()), Spawn(old(State())))
    {
      hide Create, CanMoveTo;
      var p := pieces.Make(rng, frame.defX, frame.defY);
      var x, y := frame.defX - p.rot / 2, frame.defY;
      motion := motion.(x := x, y := y);
      var fits := PieceMoves.FitsAt(p, board.Value(), x, y);
      if !fits {
        motion := motion.(current := None, phase := Over);
        events := events + [GameOver];
        return;
      }
      motion := motion.(current := Some(p.(x := x, y := y)), dropping := false, dropTime := frame.baseDropTime,
                        phase := Falling, dropAccum := 0);
    }

    method BeginSlide()
      requires Valid()
      modifies this
      ensures Valid() && Full() == old(Full()).(g := StartSlide(old(State())))
    {
      motion := motion.(sliding := 1, slideTime := if Active(curses.active, NO_SLIDE) then 0 else 150);
      motion := motion.(phase := Sliding, slideAccum := 0);
    }

    // The piece moved to (x, y), if it fits there.
    method TryMove(x: int, y: int) returns (moved: bool)
      requires Valid()
      modifies this
      ensures Valid() && moved == Fits(old(State()), x, y)
      ensures Full() == old(Full()).(g := if moved then ShiftTo(old(State()), x, y) else old(State()))
    {
      hide CanMoveTo;
      moved := false;
      if motion.current.Some? {
        moved := PieceMoves.FitsAt(motion.current.value, board.Value(), x, y);
        if moved { motion := motion.(current := Some(motion.current.value.(x := x, y := y)), x := x, y := y); }
      }
    }

    method DropOne()
      requires Valid()
      modifies this
      ensures Valid() && Full() == old(Full()).(g := DropStep(old(State())))
    {
      hide Fits;
      if motion.current.Some? {
        var moved := TryMove(motion.x, motion.y + frame.deltaY);
        if !moved { BeginSlide(); }
      }
    }

    // ----- scoring -----

    method Announcement()
      requires Valid()
      modifies this`events
      ensures Valid() && Full() == old(Full()).(ev := old(Full()).ev + [Announce(old(State()))])
    { events := events + [Scored(tally.score, tally.lines, tally.funds)]; }

    method CreditFunds(clear: int)
      requires Valid()
      modifies this
      ensures Valid() && Full() == Advance(old(Full()), CreditClear(old(State()), clear))
    {
      hide MondaleKept;
      var gained := clear;
      if Active(curses.active, MONDALE) {
        var kept := MondaleKept(clear);
        var tax := clear - kept;
        if tax != 0 { events := events + [FundsStolen(tax)]; }
        gained := kept;
      }
      tally := tally.(funds := tally.funds + gained);
    }

    method RefreshBazaar()
      requires Valid()
      modifies this
      ensures Valid() && Full() == Advance(old(Full()), UpdateBazaar(old(State())))
    {
      var til := 20 - (tally.opLines + tally.lines) % 20;
      if til > tally.tilBazaar {
        tally := tally.(inBazaar := true);
        events := events + [EnterBazaar];
      }
      tally := tally.(tilBazaar := til);
    }

    // ----- weapons turning on and off -----

    method WeaponOff(t: WeaponToken)
      requires Valid()
      modifies this, board, pieces, pieces.keep
      ensures Valid() && Full() == old(Full()).(g := ApplyOff(old(State()), t))
    {
      hide RevertEffect, StreamOff;
      curses := curses.(active := curses.active[t := 0]);
      board.RevertWeapon(t);
      board.SetActive(t, false);
      pieces.WeaponOff(t);
      if t == UPBYSIDE {
        frame := frame.(defX := 5, defY := 0, deltaY := 1, leftX := -1, rightX := 1);
      } else if t == SPEEDY {
        frame := frame.(baseDropTime := frame.baseDropTime * 2);
      } else if t == MEADOW {
        frame := frame.(baseDropTime := frame.baseDropTime / 2, fastDropTime := frame.fastDropTime / 2);
      }
    }

    method WearOne(cleared: int, i: WeaponToken)
      requires Valid()
      modifies this, board, pieces, pieces.keep
      ensures Valid() && Full() == old(Full()).(g := Worn(old(State()), cleared, i))
    {
      hide ApplyOff;
      if curses.remaining[i] == 0 { return; }
      curses := curses.(remaining := curses.remaining[i := Max(curses.remaining[i] - cleared, 0)]);
      if curses.remaining[i] == 0 { WeaponOff(i); }
    }

    // Lines wear every weapon down; those that reach zero turn off.
    method WearDown(cleared: int)
      requires Valid()
      modifies this, board, pieces, pieces.keep
      ensures Valid() && Full() == old(Full()).(g := TickDurations(old(State()), cleared, 0))
    {
      hide Worn;
      var i := 0;
      while i < MAX_WEAPONS
        invariant 0 <= i <= MAX_WEAPONS && Valid()
        invariant TickDurations(State(), cleared, i) == TickDurations(old(State()), cleared, 0)
        invariant Full() == old(Full()).(g := State())
      {
        WearOne(cleared, i);
        i := i + 1;
      }
    }

    // A clear opens the bazaar before it wears the weapons down.
    method TakeLines(cleared: int)
      requires Valid()
      modifies this, board, pieces, pieces.keep
      ensures Valid() && Full() == Advance(old(Full()), CountLines(old(State()), cleared))
    {
      hide UpdateBazaar, TickDurations;
      RefreshBazaar();
      WearDown(cleared);
    }

    // Rows that the bottle's walls complete are credited like any clear.
    method CreditBottle(clear: LineClear)
      requires Valid()
      modifies this, board, pieces, pieces.keep
      ensures Valid() && Full() == Advance(old(Full()), EarnBottle(old(State()), clear))
    {
      hide CreditClear, CountLines;
      if clear.lines > 0 {
        tally := tally.(lines := tally.lines + clear.lines);
        CreditFunds(clear.funds);
        TakeLines(clear.lines);
        Announcement();
      }
    }

    // The flag, the lines of life and the board.
    method EngageWeapon(t: WeaponToken) returns (clear: LineClear)
      requires Valid()
      modifies this, board, rng
      ensures Valid() && Full() == old(Full()).(g := Engage(old(State()), t).0)
      ensures clear == Engage(old(State()), t).1
    {
      hide ApplyEffect;
      curses := curses.(active := curses.active[t := 1],
                        remaining := curses.remaining[t := curses.remaining[t] + Duration(t)]);
      board.SetActive(t, true);
      clear := board.ApplyWeapon(t, rng);
    }

    // The movement frame, the clocks and the purse.
    method ArmWeapon(t: WeaponToken, was: bool)
      requires Valid()
      modifies this
      ensures Valid() && Full() == old(Full()).(g := OnArm(old(State()), t, was))
    {
      if t == UPBYSIDE {
        frame := frame.(defY := 24, deltaY := -1, leftX := 1, rightX := -1);
      } else if t == SPEEDY {
        if !was {
          frame := frame.(baseDropTime := frame.baseDropTime / 2);
          if motion.dropTime != frame.fastDropTime { motion := motion.(dropTime := Max(frame.baseDropTime, 1)); }
        }
      } else if t == MEADOW {
        if !was {
          frame := frame.(fastDropTime := frame.fastDropTime * 2, baseDropTime := frame.baseDropTime * 2);
          if motion.dropTime != frame.fastDropTime { motion := motion.(dropTime := frame.baseDropTime); }
        }
      } else if t == KEATING {
        tally := tally.(funds := 0);
      } else if t == REAGAN {
        tally := tally.(funds := -tally.funds);
      }
    }

    method WeaponOn(t: WeaponToken)
      requires Valid()
      modifies this, board, rng, pieces, pieces.keep
      ensures Valid() && Full() == Advance(old(Full()), ApplyOn(old(State()), t))
    {
      hide Engage, EarnBottle, OnArm, StreamOn;
      var was := Active(curses.active, t);
      var clear := EngageWeapon(t);
      CreditBottle(clear);
      pieces.WeaponOn(t);
      ArmWeapon(t, was);
    }

    method ForceWeaponOff(t: WeaponToken)
      requires Valid()
      modifies this, board, pieces, pieces.keep
      ensures Valid() && Full() == old(Full()).(g := ForceOff(old(State()), t))
    {
      hide ApplyOff;
      if Active(curses.active, t) { WeaponOff(t); }
      curses := curses.(remaining := curses.remaining[t := 0]);
    }

    // ----- the exchanged board -----

    method ExportCellsNow() returns (out: seq<int>)
      requires Valid()
      ensures out == ExportBoard(State().board)
    {
      hide Cells.EncodeSquare;
      out := [];
      var row := 0;
      while row < 28
        invariant 0 <= row <= 28 && out == ExportCells(board.cells, row)
      {
        var line: seq<int> := [];
        var col := 0;
        while col < 10
          invariant 0 <= col <= 10 && line == ExportRow(board.cells[row], col)
        {
          line := line + Cells.EncodeSquare(board.cells[row][col]);
          col := col + 1;
        }
        out := out + line;
        row := row + 1;
      }
    }

    // An export of the wrong length is ignored.
    method ImportCells(data: seq<int>)
      requires Valid()
      modifies board
      ensures Valid() && Full() == old(Full()).(g := old(State()).(board := ImportBoard(old(State()).board, data)))
    {
      if |data| != 1120 { return; }
      ghost var c := board.cells;
      hide Cells.DecodeSquare;
      var row := 0;
      while row < 28
        invariant 0 <= row <= 28 && board.newFill == [] && board.Value() == old(board.Value()).(cells := board.cells)
        invariant forall x, y :: InBounds(x, y) ==>
          board.cells[y][x] == if y < row then ImportSquare(data, x, y) else c[y][x]
      {
        var col := 0;
        while col < 10
          invariant 0 <= col <= 10 && board.newFill == [] && board.Value() == old(board.Value()).(cells := board.cells)
          invariant forall x, y :: InBounds(x, y) ==>
            board.cells[y][x] == if y < row || (y == row && x < col) then ImportSquare(data, x, y) else c[y][x]
        {
          board.Set(col, row, ImportSquare(data, col, row));
          col := col + 1;
        }
        row := row + 1;
      }
      SameGrid(board.cells, ImportGrid(data));
    }

    method InstallBoard()
      requires Valid()
      modifies this, board, pieces, pieces.keep
      ensures Valid() && Full() == old(Full()).(g := InstallSwap(old(State())))
    {
      hide ForceOff, ImportBoard;
      if curses.swap.Some? {
        var cells := curses.swap.value;
        curses := curses.(swap := None);
        ImportCells(cells);
        ForceWeaponOff(BOTTLE);
        ForceWeaponOff(UPBYSIDE);
      }
    }

    // The weapons that waited for the lock, then a swapped board.
    method Flush()
      requires Valid()
      modifies this, board, rng, pieces, pieces.keep
      ensures Valid() && Full() == Advance(old(Full()), FlushPending(old(State())))
    {
      hide ApplyOn, InstallSwap;
      var pend := curses.pending;
      curses := curses.(pending := []);
      ghost var s0 := ApplyAll(State(), pend);
      var k := 0;
      while k < |pend|
        invariant 0 <= k <= |pend| && Valid()
        invariant Advance(Full(), ApplyAll(State(), pend[k..])) == Advance(old(Full()), s0)
      {
        assert pend[k..][0] == pend[k] && pend[k..][1..] == pend[k + 1..];
        AdvanceTwice(Full(), ApplyOn(State(), pend[k]), ApplyAll(ApplyOn(State(), pend[k]).g, pend[k + 1..]));
        WeaponOn(pend[k]);
        k := k + 1;
      }
      assert pend[k..] == [];
      AdvanceNothing(Full());
      InstallBoard();
    }

    // ----- locking -----

    // The piece lands and full rows go; a drop that slid into place is an airslide.
    method LandAndScan() returns (clear: LineClear)
      requires Valid() && motion.current.Some?
      modifies this, board
      ensures Valid()
      ensures var g := old(State());
        var p := g.motion.current.value;
        && (Full().g.board, clear) == CheckLines(Land(p, g.board))
        && Full().g == g.(board := Full().g.board, motion := g.motion.(current := None))
        && Full() == old(Full()).(g := Full().g, ev := old(Full()).ev + if Slid(g) then [Airslide] else [])
    {
      hide Land, CheckLines, CanMoveTo;
      var p := motion.current.value;
      motion := motion.(current := None);
      if motion.dropping && motion.sliding <= 1 {
        var back := PieceMoves.FitsAt(p, board.Value(), motion.x, motion.y - frame.deltaY);
        if !back { events := events + [Airslide]; }
      }
      board.LandPiece(p);
      clear := board.ClearLines();
    }

    method Heckle()
      requires Valid()
      modifies this, board
      ensures Valid()
      ensures var (b, why) := FlushIdiot(old(State()).board);
        Full() == old(Full()).(g := old(State()).(board := b),
          ev := old(Full()).ev + if why.Some? then [Idiot(why.value)] else [])
    {
      var why := board.FlushIdiotFlag();
      if why.Some? { events := events + [Idiot(why.value)]; }
    }

    // The piece lands and its lines are cleared and paid.
    method LandAndPay() returns (cleared: nat)
      requires Valid() && motion.current.Some?
      modifies this, board
      ensures Valid() && Full() == Advance(old(Full()), Paid(old(State())))
      ensures cleared == CheckLines(Land(old(State()).motion.current.value, old(State()).board)).1.lines
    {
      hide CreditClear, Land, CheckLines, Slid, Collected;
      ghost var g := State();
      var clear := LandAndScan();
      ghost var p := Full();
      Collect(clear);
      PaidIs(g, p.g, clear);
      cleared := clear.lines;
    }

    method Collect(clear: LineClear)
      requires Valid()
      modifies this
      ensures Valid() && Full() == Advance(old(Full()), Collected(old(State()), clear))
    {
      hide CreditClear;
      tally := tally.(lines := tally.lines + clear.lines);
      CreditFunds(clear.funds);
      events := events + [Locked(clear.lines, clear.value, clear.funds)];
    }

    // The heckle, the bazaar and the durations, and the score going out.
    method Settle(cleared: nat)
      requires Valid()
      modifies this, board, pieces, pieces.keep
      ensures Valid() && Full() == Advance(old(Full()), Concluded(old(State()), cleared))
    {
      hide CountLines, FlushIdiot;
      Heckle();
      if cleared > 0 { TakeLines(cleared); }
      Announcement();
    }

    method LandAndClear()
      requires Valid() && motion.current.Some?
      modifies this, board, pieces, pieces.keep
      ensures Valid() && Full() == Advance(old(Full()), LockPiece(old(State())))
    {
      hide LockPiece, Paid, Concluded, CheckLines, Land;
      ghost var p0, g0 := Full(), State();
      LockPieceIs(g0);
      var cleared := LandAndPay();
      Settle(cleared);
      AdvanceTwice(p0, Paid(g0), Concluded(Paid(g0).g, cleared));
    }

    method CountLock()
      requires Valid()
      modifies this
      ensures Valid() && Full() == old(Full()).(g := MarkLock(old(State())))
    {
      hide HashOf;
      lockSeq := lockSeq + 1;
      lockHash := HashOf(State());
    }

    method LockNow()
      requires Valid() && motion.current.Some?
      modifies this, board, rng, pieces, pieces.keep
      ensures Valid() && Full() == Advance(old(Full()), Lock(old(State())))
    {
      hide LockPiece, FlushPending, Spawn, MarkLock;
      ghost var p0, g0 := Full(), State();
      LandAndClear();
      ghost var l := LockPiece(g0);
      AdvanceTwice(p0, l, FlushPending(l.g));
      Flush();
      ghost var f := FlushPending(l.g);
      AdvanceTwice(p0, Step(f.g, l.ev + f.ev), Spawn(f.g));
      SpawnNext();
      CountLock();
      motion := motion.(sliding := 0);
      LockIs(g0);
    }

    // The lock delay has run out.
    method PlaceNow()
      requires Valid()
      modifies this, board, rng, pieces, pieces.keep
      ensures Valid() && Full() == Advance(old(Full()), Place(old(State())))
    {
      hide Lock, CanMoveTo;
      if motion.current.None? { return; }
      var p := motion.current.value;
      var canDown := PieceMoves.FitsAt(p, board.Value(), motion.x, motion.y + frame.deltaY);
      if !canDown {
        LockNow();
      } else {
        motion := motion.(y := motion.y + frame.deltaY);
        motion := motion.(current := Some(p.(x := motion.x, y := motion.y)), phase := Falling, dropAccum := 0,
          sliding := 0);
      }
    }

    // ----- the clock -----

    method RotateOnce()
      requires Valid()
      modifies this
      ensures Valid() && Full() == old(Full()).(g := RotateNow(old(State())))
    {
      hide Rotate;
      if motion.current.Some? {
        var q, ok := PieceMoves.TurnPiece(motion.current.value, board.Value(), false);
        motion := motion.(current := Some(q));
      }
    }

    method SlickOnce()
      requires Valid()
      modifies this
      ensures Valid() && Full() == old(Full()).(g := SlickStep(old(State())))
    {
      hide Fits;
      if motion.current.Some? {
        var dir := if motion.slickDir == 0 then frame.leftX else frame.rightX;
        var moved := TryMove(motion.x + dir, motion.y);
        if !moved { motion := motion.(slickDir := if motion.slickDir == 0 then 1 else 0); }
      }
    }

    method HatterTicks()
      requires Valid()
      modifies this
      ensures Valid() && Full() == old(Full()).(g := Hatter(old(State())))
    {
      hide RotateNow;
      while motion.hatterAccum >= 20
        invariant Valid() && Full() == old(Full()).(g := State())
        invariant Hatter(State()) == Hatter(old(State()))
        decreases motion.hatterAccum
      {
        motion := motion.(hatterAccum := motion.hatterAccum - 20);
        RotateOnce();
      }
    }

    method SlickTicks()
      requires Valid()
      modifies this
      ensures Valid() && Full() == old(Full()).(g := Slick(old(State())))
    {
      hide SlickStep;
      while motion.slickAccum >= 20
        invariant Valid() && Full() == old(Full()).(g := State())
        invariant Slick(State()) == Slick(old(State()))
        decreases motion.slickAccum
      {
        motion := motion.(slickAccum := motion.slickAccum - 20);
        SlickOnce();
      }
    }

    method WeaponTicks(dt: int)
      requires Valid()
      modifies this
      ensures Valid() && Full() == old(Full()).(g := TickWeapons(old(State()), dt))
    {
      hide Hatter, Slick;
      if Active(curses.active, HATTER) {
        motion := motion.(hatterAccum := motion.hatterAccum + dt);
        HatterTicks();
      }
      if Active(curses.active, SLICK) && motion.phase == Falling && !motion.dropping {
        motion := motion.(slickAccum := motion.slickAccum + dt);
        SlickTicks();
      }
    }

    method FallTicks(step: int)
      requires Valid() && step >= 1
      modifies this
      ensures Valid() && Full() == old(Full()).(g := Fall(old(State()), step))
    {
      hide DropStep;
      while motion.phase == Falling && motion.dropAccum >= step
        invariant Valid() && Full() == old(Full()).(g := State())
        invariant Fall(State(), step) == Fall(old(State()), step)
        decreases motion.dropAccum
      {
        motion := motion.(dropAccum := motion.dropAccum - step);
        DropOne();
      }
    }

    method SlideTicks(step: int)
      requires Valid() && step >= 0
      modifies this, board, rng, pieces, pieces.keep
      ensures Valid() && Full() == Advance(old(Full()), Slide(old(State()), step))
    {
      hide Place;
      ghost var p0, s0 := Full(), Slide(State(), step);
      while motion.phase == Sliding && !(step > 0 && motion.slideAccum < step)
        invariant Valid() && Advance(Full(), Slide(State(), step)) == Advance(p0, s0)
        decreases motion.slideAccum
      {
        ghost var p1 := Full();
        if step > 0 { motion := motion.(slideAccum := motion.slideAccum - step); }
        ghost var m := State();
        PlaceNow();
        if step == 0 { return; }
        AdvanceTwice(p1.(g := m), Place(m), Slide(Place(m).g, step));
      }
      AdvanceNothing(Full());
    }

    // One step of the clock.
    method TickBy(dt: int)
      requires Valid()
      modifies this, board, rng, pieces, pieces.keep
      ensures Valid() && Full() == Advance(old(Full()), Tick(old(State()), dt))
    {
      hide TickWeapons, Fall, Slide;
      AdvanceNothing(Full());
      if paused || tally.inBazaar || motion.phase == Over || dt <= 0 { return; }
      WeaponTicks(dt);
      match motion.phase
      case Falling =>
        motion := motion.(dropAccum := motion.dropAccum + dt);
        FallTicks(Max(motion.dropTime, 1));
      case Sliding =>
        motion := motion.(slideAccum := motion.slideAccum + dt);
        SlideTicks(Max(motion.slideTime, 0));
      case Over =>
    }

    // ----- inputs -----

    method MoveSideways(dx: int)
      requires Valid()
      modifies this
      ensures Valid() && Full() == old(Full()).(g := MoveBy(old(State()), dx))
    {
      hide Fits;
      if paused || motion.phase == Over { return; }
      var moved := TryMove(motion.x + dx, motion.y);
      if moved && motion.sliding != 0 { motion := motion.(sliding := motion.sliding + 1); }
    }

    method RotatePressed()
      requires Valid()
      modifies this
      ensures Valid() && Full() == old(Full()).(g := RotateInput(old(State())))
    {
      hide RotateNow;
      if paused || motion.phase == Over { return; }
      RotateOnce();
    }

    // True only when this call newly engages the fast drop.
    method EngageFastDrop() returns (engaged: bool)
      requires Valid()
      modifies this
      ensures Valid() && Full() == old(Full()).(g := FastDrop(old(State())))
      ensures engaged == EngagesDrop(old(State()))
    {
      if paused || tally.inBazaar || motion.phase == Over { return false; }
      motion := motion.(dropping := true);
      if motion.dropTime == frame.fastDropTime { return false; }
      motion := motion.(dropTime := frame.fastDropTime, dropAccum := 0);
      engaged := true;
    }

    method HardDrop()
      requires Valid()
      modifies this
      ensures Valid() && Full() == old(Full()).(g := BeginDrop(old(State())))
    {
      var engaged := EngageFastDrop();
      if engaged { tally := tally.(score := tally.score + (28 - motion.y)); }
    }

    method ComputerDrop()
      requires Valid()
      modifies this
      ensures Valid() && Full() == old(Full()).(g := AiBeginDrop(old(State())))
    {
      var engaged := EngageFastDrop();
      if engaged { tally := tally.(score := tally.score + 14); }
    }

    method SoftDropPressed()
      requires Valid()
      modifies this
      ensures Valid() && Full() == old(Full()).(g := SoftDrop(old(State())))
    {
      hide DropStep;
      if paused || tally.inBazaar || motion.phase != Falling { return; }
      DropOne();
      motion := motion.(dropAccum := 0);
    }

    method Launch(slot: nat)
      requires Valid()
      modifies this, arsenal.rep, arsenal.quantity
      ensures Valid() && Full() == Advance(old(Full()), LaunchWeapon(old(State()), slot))
    {
      hide UseSlot;
      AdvanceNothing(Full());
      if tally.inBazaar || motion.phase == Over { return; }
      var t := arsenal.Token(slot);
      if t.Some? {
        arsenal.Use(slot);
        events := events + [WeaponLaunched(t.value)];
      }
    }

    // The price in force, doubled under Carter.
    method QuotePrice(t: WeaponToken) returns (p: int)
      requires Valid()
      ensures p == BazaarPrice(State(), t)
    {
      p := Price(t);
      if Active(curses.active, CARTER) { p := p * 2; }
    }

    method BuyNow(t: WeaponToken) returns (bought: bool)
      requires Valid()
      modifies this, arsenal.rep, arsenal.quantity
      ensures Valid() && Full() == old(Full()).(g := BuyWeapon(old(State()), t))
      ensures bought == BuyAccepted(old(State()), t)
      ensures !bought ==> Full() == old(Full())
    {
      hide Buy, BazaarPrice;
      FullBank(State().arsenal, t);
      if !tally.inBazaar { return false; }
      var price := QuotePrice(t);
      if tally.funds < price { return false; }
      bought := arsenal.BuyOne(t);
      if bought { tally := tally.(funds := tally.funds - price); }
    }

    method SellNow(t: WeaponToken) returns (sold: bool)
      requires Valid()
      modifies this, arsenal.rep, arsenal.quantity
      ensures Valid() && Full() == old(Full()).(g := SellWeapon(old(State()), t))
      ensures sold == SellAccepted(old(State()), t)
      ensures !sold ==> Full() == old(Full())
    {
      hide Sell, BazaarPrice;
      NothingToSell(State().arsenal, t);
      if !tally.inBazaar { return false; }
      var price := QuotePrice(t);
      sold := arsenal.SellOne(t);
      if sold { tally := tally.(funds := tally.funds + price); }
    }

    method Leave()
      requires Valid()
      modifies this
      ensures Valid() && Full() == old(Full()).(g := LeaveBazaar(old(State())))
    { tally := tally.(inBazaar := false); }

    method SetPaused(on: bool)
      requires Valid()
      modifies this
      ensures Valid() && Full() == old(Full()).(g := old(State()).(paused := on))
    { paused := on; }

    // ----- effects from the other player -----

    method Receive(t: WeaponToken)
      requires Valid()
      modifies this
      ensures Valid() && Full() == old(Full()).(g := ReceiveWeapon(old(State()), t))
    { curses := curses.(pending := curses.pending + [t]); }

    method QueueBoard(cells: seq<int>)
      requires Valid()
      modifies this
      ensures Valid() && Full() == old(Full()).(g := QueueSwap(old(State()), cells))
    { curses := curses.(swap := Some(cells)); }

    method RaiseLines(n: nat)
      requires Valid()
      modifies board, rng
      ensures Valid()
      ensures var r := InsertLines(old(State()).board, old(State()).rng, n);
        Full() == old(Full()).(g := old(State()).(board := r.0, rng := r.1))
    {
      hide InsertLine;
      var k := 0;
      while k < n
        invariant 0 <= k <= n && Valid()
        invariant InsertLines(board.Value(), rng.state, n - k) == InsertLines(old(State()).board, old(State()).rng, n)
        invariant Full() == old(Full()).(g := old(State()).(board := board.Value(), rng := rng.state))
      {
        board.InsertGarbage(rng);
        k := k + 1;
      }
    }

    // The opponent's score: the mirror, Lawyers' garbage, the bazaar trigger.
    method ReceiveScore(theirScore: int, theirLines: int, theirFunds: int)
      requires Valid()
      modifies this, board, rng
      ensures Valid() && Full() == Inputs.Apply(old(Full()), OpScoreIn(theirScore, theirLines, theirFunds))
    {
      hide InsertLines, UpdateBazaar, Live;
      var n := if Active(curses.active, LAWYERS) then Max(theirLines - tally.opLines, 0) else 0;
      opScore, opFunds := theirScore, theirFunds;
      NoLines(board.Value(), rng.state);
      RaiseLines(n);
      tally := tally.(opLines := theirLines);
      RefreshBazaar();
    }

    method Bank(amount: int)
      requires Valid()
      modifies this
      ensures Valid() && Full() == Advance(old(Full()), AddFunds(old(State()), amount))
    {
      AdvanceNothing(Full());
      if amount == 0 { return; }
      tally := tally.(funds := tally.funds + amount);
      Announcement();
    }

    method Grant(t: WeaponToken) returns (granted: bool)
      requires Valid()
      modifies arsenal.rep, arsenal.quantity
      ensures Valid() && Full() == old(Full()).(g := GrantWeapon(old(State()), t))
      ensures granted == Buy(old(State()).arsenal, t).1
    {
      hide Buy;
      granted := arsenal.BuyOne(t);
    }

    // One recorded action.
    method ApplyInput(i: Input)
      requires Valid()
      modifies Repr()
      ensures Valid() && Full() == Inputs.Apply(old(Full()), i)
    {
      hide MoveBy, RotateInput, BeginDrop, AiBeginDrop, SoftDrop, LaunchWeapon, BuyWeapon, SellWeapon,
        ReceiveOpLines, AddFunds, GrantWeapon;
      NoEvents(Full());
      match i
      case MoveLeft => MoveSideways(frame.leftX);
      case MoveRight => MoveSideways(frame.rightX);
      case RotateKey => RotatePressed();
      case BeginDropKey => HardDrop();
      case AiDropKey => ComputerDrop();
      case SoftDropKey => SoftDropPressed();
      case LaunchSlot(k) => Launch(k);
      case BuyIndex(k) => if FromIndex(k).Some? { var ok := BuyNow(k); }
      case SellIndex(k) => if FromIndex(k).Some? { var ok := SellNow(k); }
      case LeaveKey => Leave();
      case PauseKey(on) => SetPaused(on);
      case WeaponIn(k) => if FromIndex(k).Some? { Receive(k); }
      case OpScoreIn(s, l, f) => ReceiveScore(s, l, f);
      case FundsIn(n) => Bank(n);
      case GrantIn(k) => if FromIndex(k).Some? { var ok := Grant(k); }
    }

    // The queued events, handed out.
    method TakeEvents() returns (ev: seq<GameEvent>)
      requires Valid()
      modifies this`events
      ensures ev == old(Full()).ev && Valid() && Full() == old(Full()).(ev := [])
    { ev, events := events, []; }

    // ----- the keyframe -----

    function Saving(): Keyframes.Saved
      requires Apart()
      reads Repr()
    { Keyframes.Saved(State(), opScore, opFunds) }

    // Everything, in order, pushed onto one list.
    method TakeSnapshot() returns (o: seq<int>)
      requires Valid() && 0 <= lockSeq < MOD64
      ensures o == Keyframes.Snapshot(Saving())
    {
      hide Keyframes.Head, Keyframes.PieceBody, Keyframes.Tail, ExportBoard;
      o := Keyframes.Head(Saving());
      o := o + Keyframes.PieceBlock(motion.current);
      o := o + [|curses.pending|];
      var k := 0;
      ghost var before := o;
      while k < |curses.pending|
        invariant 0 <= k <= |curses.pending| && o == before + curses.pending[..k]
      {
        o := o + [curses.pending[k]];
        k := k + 1;
      }
      assert curses.pending[..k] == curses.pending;
      o := o + Keyframes.SwapBlock(curses.swap);
      var cells := ExportCellsNow();
      o := o + cells + Keyframes.Tail(State());
    }

    // Only a well-formed keyframe that is read to its end is taken over, and then the queued
    // events go.
    method Restore(data: seq<int>) returns (taken: bool)
      requires Apart() && board.newFill == []
      modifies Repr()
      ensures Apart() && board.newFill == []
      ensures (Saving(), taken) == Keyframes.Restore(old(Saving()), data)
      ensures taken ==> events == []
      ensures !taken ==> events == old(events) && State() == old(State())
    {
      hide Keyframes.Restorable, Keyframes.Restored, PartsIn, Assembled;
      var read := ReadParts(data);
      taken := read.Some?;
      if taken {
        AssembledIs(data);
        Commit(read.value);
      }
    }

    // Everything is read into locals first.
    static method ReadParts(data: seq<int>) returns (read: Option<Parts>)
      ensures read == if Keyframes.Restorable(data) then Some(PartsIn(data)) else None
    {
      hide Keyframes.HeadOk, Keyframes.BodyOk, Keyframes.BodyPiece, Keyframes.PendingOk, Keyframes.RestoredPending,
        Keyframes.Slice, Keyframes.All32;
      var c := new Cursor(data);
      var h := c.Take(140);
      if !Keyframes.HeadOk(h) { return None; }
      var flag := c.Next();
      var piece: Option<Piece> := None;
      if flag != 0 {
        var body := c.Take(264);
        if !Keyframes.BodyOk(body) { return None; }
        piece := Some(Keyframes.BodyPiece(body));
      }
      var pending, fine := c.TakeTokens();
      if !fine { return None; }
      var swapFlag := c.Next();
      var swap: Option<seq<int>> := None;
      if swapFlag == 1 {
        var exported := c.Take(1120);
        swap := Some(Keyframes.All32(exported));
      } else if swapFlag != 0 {
        return None;
      }
      var cells := c.Take(1120);
      var t := c.Take(40);
      if !c.Finished() { return None; }
      read := Some(Parts(h, piece, pending, swap, cells, t));
    }

    // Everything overwritten from what was read.
    method Commit(read: Parts)
      requires Apart() && board.newFill == [] && read.Sized()
      modifies Repr()
      ensures Apart() && board.newFill == [] && events == []
      ensures Saving() == Assembled(read)
    {
      hide Keyframes.RestoredBoard, Keyframes.RestoredStream, Keyframes.RestoredTally, Keyframes.RestoredFrame,
        Keyframes.MotionFrom, Keyframes.ImportArsenal, Keyframes.All32;
      var Parts(h, piece, pending, swap, cells, t) := read;
      CommitParts(h, cells, t);
      CommitFields(h, piece, pending, swap, t);
    }

    method CommitFields(h: seq<int>, piece: Option<Piece>, pending: seq<WeaponToken>, swap: Option<seq<int>>, t: seq<int>)
      requires Apart() && |h| == 140 && |t| == 40
      modifies this
      ensures Apart() && events == []
      ensures tally == Keyframes.RestoredTally(h) && motion == Keyframes.MotionFrom(h, piece)
      ensures frame == Keyframes.RestoredFrame(h)
      ensures curses == Curses(Keyframes.All32(h[52..86]), Keyframes.All32(h[86..120]), pending, swap)
      ensures paused == (h[17] != 0) && opScore == h[24] && opFunds == h[28]
      ensures lockSeq == Keyframes.AsWord(t[38]) && lockHash == t[39] % 0x1_0000_0000
    {
      hide Keyframes.RestoredTally, Keyframes.RestoredFrame, Keyframes.MotionFrom, Keyframes.All32;
      tally := Keyframes.RestoredTally(h);
      motion := Keyframes.MotionFrom(h, piece);
      frame := Keyframes.RestoredFrame(h);
      curses := Curses(Keyframes.All32(h[52..86]), Keyframes.All32(h[86..120]), pending, swap);
      paused, opScore, opFunds := h[17] != 0, h[24], h[28];
      lockSeq, lockHash := Keyframes.AsWord(t[38]), t[39] % 0x1_0000_0000;
      events := [];
    }

    // The objects the game holds.
    method CommitParts(h: seq<int>, cells: seq<int>, t: seq<int>)
      requires Apart() && |h| == 140 && |cells| == 1120 && |t| == 40
      modifies board, pieces, pieces.keep, rng, arsenal.rep, arsenal.quantity
      ensures Apart() && board.newFill == old(board.newFill) && rng.state == Keyframes.AsWord(h[29])
      ensures board.Value() == Keyframes.RestoredBoard(cells, t) && pieces.Value() == Keyframes.RestoredStream(h)
      ensures arsenal.Value() == Keyframes.ImportArsenal(Keyframes.All32(h[120..140]))
    {
      hide Keyframes.RestoredBoard, Keyframes.RestoredStream, Keyframes.ImportArsenal, Keyframes.All32;
      LoadBank(Keyframes.All32(h[120..140]));
      var stream := Keyframes.RestoredStream(h);
      pieces.SetRaw(stream.keep, stream.hapOn, stream.broken, stream.oldPiece);
      rng.state := Keyframes.AsWord(h[29]);
      board.Load(Keyframes.RestoredBoard(cells, t));
    }

    // The exact slots, holes included.
    method LoadBank(v: seq<int>)
      requires Apart() && |v| == 20
      modifies arsenal.rep, arsenal.quantity
      ensures Apart() && arsenal.Value() == Keyframes.ImportArsenal(v)
    {
      hide Keyframes.ImportSlot;
      var i := 0;
      while i < 10
        invariant 0 <= i <= 10
        invariant forall k :: 0 <= k < i ==>
          (arsenal.rep[k], arsenal.quantity[k]) == Keyframes.ImportSlot(v[2 * k], v[2 * k + 1])
      {
        var (token, qty) := Keyframes.ImportSlot(v[2 * i], v[2 * i + 1]);
        SlotEmpties(v[2 * i], v[2 * i + 1]);
        arsenal.SetSlot(i, token, qty);
        i := i + 1;
      }
    }
  }

  // An imported slot holds a weapon exactly when it holds some of it.
  lemma SlotEmpties(token: int, qty: int)
    ensures var (t, q) := Keyframes.ImportSlot(token, qty); t.None? <==> q == 0
  {}

  lemma AdvanceTwice(p: Player, s: Step, t: Step)
    ensures Advance(Advance(p, s), t) == Advance(p, Step(t.g, s.ev + t.ev))
  { assert (p.ev + s.ev) + t.ev == p.ev + (s.ev + t.ev); }

  lemma AdvanceNothing(p: Player)
    ensures Advance(p, Step(p.g, [])) == p
  {}

  lemma NoEvents(p: Player)
    ensures p.ev + [] == p.ev
  {}

  // A refused purchase or sale leaves the bank as it was.
  lemma FullBank(a: Arsenal, t: WeaponToken)
    ensures !Buy(a, t).1 ==> Buy(a, t).0 == a
  {}

  lemma NothingToSell(a: Arsenal, t: WeaponToken)
    ensures !Sell(a, t).1 ==> Sell(a, t).0 == a
  { hide UseSlot; }

  lemma LockIs(g: Sim)
    requires g.motion.current.Some?
    ensures var l := LockPiece(g);
      var f := FlushPending(l.g);
      var s := Spawn(f.g);
      var m := MarkLock(s.g);
      Lock(g) == Step(m.(motion := m.motion.(sliding := 0)), l.ev + f.ev + s.ev)
  { hide LockPiece, FlushPending, Spawn, MarkLock; }

  // A fast drop that slid into place without having been steered.
  predicate Slid(g: Sim)
    requires g.motion.current.Some?
  {
    && g.motion.dropping && g.motion.sliding <= 1
    && !CanMoveTo(g.motion.current.value, g.board, g.motion.x, g.motion.y - g.frame.deltaY)
  }

  function Paid(g: Sim): Step
    requires g.motion.current.Some?
  {
    var (b, clear) := CheckLines(Land(g.motion.current.value, g.board));
    var c := CreditClear(g.(board := b, tally := g.tally.(lines := g.tally.lines + clear.lines),
                            motion := g.motion.(current := None)), clear.funds);
    Step(c.g, (if Slid(g) then [Airslide] else []) + c.ev + [Locked(clear.lines, clear.value, clear.funds)])
  }

  function Collected(g: Sim, clear: LineClear): Step
  {
    var c := CreditClear(g.(tally := g.tally.(lines := g.tally.lines + clear.lines)), clear.funds);
    Step(c.g, c.ev + [Locked(clear.lines, clear.value, clear.funds)])
  }

  // The landing's own event, then what is collected.
  lemma PaidIs(g: Sim, h: Sim, clear: LineClear)
    requires g.motion.current.Some? && (h.board, clear) == CheckLines(Land(g.motion.current.value, g.board))
    requires h == g.(board := h.board, motion := g.motion.(current := None))
    ensures var x := if Slid(g) then [Airslide] else [];
      Paid(g) == Step(Collected(h, clear).g, x + Collected(h, clear).ev)
  {
    hide CreditClear, Land, CheckLines, Slid;
    var x := if Slid(g) then [Airslide] else [];
    var c := CreditClear(h.(tally := h.tally.(lines := h.tally.lines + clear.lines)), clear.funds);
    var y := [Locked(clear.lines, clear.value, clear.funds)];
    assert x + c.ev + y == x + (c.ev + y);
  }

  function Concluded(g: Sim, cleared: nat): Step
  {
    var (b, why) := FlushIdiot(g.board);
    var h := g.(board := b);
    var l := if cleared > 0 then CountLines(h, cleared) else Step(h, []);
    Step(l.g, (if why.Some? then [Idiot(why.value)] else []) + l.ev + [Announce(l.g)])
  }

  // The lock's first part is the two of them.
  lemma LockPieceIs(g: Sim)
    requires g.motion.current.Some?
    ensures var cleared := CheckLines(Land(g.motion.current.value, g.board)).1.lines;
      LockPiece(g) == Step(Concluded(Paid(g).g, cleared).g, Paid(g).ev + Concluded(Paid(g).g, cleared).ev)
  {
    hide CreditClear, CountLines, Land, CheckLines, FlushIdiot, CanMoveTo;
    var (b, clear) := CheckLines(Land(g.motion.current.value, g.board));
    var c := CreditClear(g.(board := b, tally := g.tally.(lines := g.tally.lines + clear.lines),
                            motion := g.motion.(current := None)), clear.funds);
    var (b', why) := FlushIdiot(b);
    var h := c.g.(board := b');
    var l := if clear.lines > 0 then CountLines(h, clear.lines) else Step(h, []);
    var x, z := if Slid(g) then [Airslide] else [], if why.Some? then [Idiot(why.value)] else [];
    var y := [Locked(clear.lines, clear.value, clear.funds)];
    assert (x + c.ev + y) + (z + l.ev + [Announce(l.g)]) == x + c.ev + y + z + l.ev + [Announce(l.g)];
  }

  lemma NoLines(b: Board, s: Word)
    ensures InsertLines(b, s, 0) == (b, s)
  {}

  // What a keyframe is read into before any of it is taken over.
  datatype Parts = Parts(h: seq<int>, piece: Option<Piece>, pending: seq<WeaponToken>, swap: Option<seq<int>>,
                         cells: seq<int>, t: seq<int>)
  {
    predicate Sized() { |h| == 140 && |cells| == 1120 && |t| == 40 }
  }

  function PartsIn(d: seq<int>): (r: Parts)
    requires Keyframes.Restorable(d)
    ensures r.Sized()
  {
    Parts(Keyframes.Slice(d, 0, 140),
          if Keyframes.Peek(d, Keyframes.HEAD) != 0 then Some(Keyframes.BodyPiece(Keyframes.Slice(d,
            Keyframes.HEAD + 1, 264))) else None,
          Keyframes.RestoredPending(d, Keyframes.AfterPiece(d)),
          if Keyframes.Peek(d, Keyframes.AfterPending(d)) == 1
            then Some(Keyframes.All32(Keyframes.Slice(d, Keyframes.AfterPending(d) + 1, 1120))) else None,
          Keyframes.Slice(d, Keyframes.AfterSwap(d), 1120), Keyframes.Slice(d, Keyframes.AfterSwap(d) + 1120, 40))
  }

  // The state the parts of a keyframe make up.
  function Assembled(r: Parts): Keyframes.Saved
    requires r.Sized()
  {
    Keyframes.Saved(
      Sim(Keyframes.RestoredBoard(r.cells, r.t), Keyframes.RestoredStream(r.h), Keyframes.AsWord(r.h[29]),
          Keyframes.RestoredTally(r.h), Keyframes.MotionFrom(r.h, r.piece), Keyframes.RestoredFrame(r.h),
          Curses(Keyframes.All32(r.h[52..86]), Keyframes.All32(r.h[86..120]), r.pending, r.swap),
          Keyframes.ImportArsenal(Keyframes.All32(r.h[120..140])), r.h[17] != 0,
          Keyframes.AsWord(r.t[38]), r.t[39] % 0x1_0000_0000),
      r.h[24], r.h[28])
  }

  lemma AssembledIs(d: seq<int>)
    requires Keyframes.Restorable(d)
    ensures Assembled(PartsIn(d)) == Keyframes.Restored(d)
  {
    hide Keyframes.RestoredBoard, Keyframes.RestoredStream, Keyframes.RestoredTally, Keyframes.RestoredFrame,
      Keyframes.MotionFrom, Keyframes.ImportArsenal, Keyframes.All32, Keyframes.Slice, Keyframes.AfterSwap;
  }
}
