/** One player's game as a value, and what each step of rust/bt-core/src/game.rs computes on
    it. A `Sim` holds every field two copies of a game must agree on. The display mirrors of
    the opponent's score and funds and the event queue stay outside it: the object in
    GameObject carries them as fields and shows that no step reads them. */
module Engine {
  import opened Wrappers
  import opened Cells
  import opened Weapons
  import opened Rng
  import opened Boards
  import opened Pieces
  import opened PieceStream
  import opened Arsenals
  import Hash

  datatype Phase = Falling | Sliding | Over

  datatype GameEvent =
    | Locked(lines: nat, value: int, funds: int)
    | Airslide
    | WeaponLaunched(token: WeaponToken)
    | Scored(score: int, totalLines: int, balance: int)
    | FundsStolen(amount: int)
    | EnterBazaar
    | Idiot(why: int)
    | GameOver

  // Scoreboard and bazaar countdown.
  datatype Tally = Tally(score: int, lines: int, opLines: int, funds: int, inBazaar: bool, tilBazaar: int)

  // The falling piece and its clocks.
  datatype Motion = Motion(
    current: Option<Piece>, x: int, y: int,
    dropTime: int, slideTime: int, dropping: bool, sliding: int,
    phase: Phase, dropAccum: int, slideAccum: int,
    hatterAccum: int, slickAccum: int, slickDir: int)

  // The movement frame, which Upbyside flips, and the base clock rates.
  datatype Frame = Frame(
    defX: int, defY: int, deltaY: int, leftX: int, rightX: int,
    baseDropTime: int, fastDropTime: int)

  type Durations = d: seq<int> | |d| == MAX_WEAPONS witness seq(MAX_WEAPONS, _ => 0)

  function NoDurations(): Durations { seq(MAX_WEAPONS, _ => 0) }

  // Weapons in force on this player, and those waiting for the next lock.
  datatype Curses = Curses(active: Flags, remaining: Durations, pending: seq<WeaponToken>, swap: Option<seq<int>>)

  datatype RawSim = Sim(
    board: Board, pieces: Stream, rng: Word, tally: Tally, motion: Motion, frame: Frame,
    curses: Curses, arsenal: Arsenal, paused: bool, lockSeq: int, lockHash: int)

  // Every game a constructor or a step produces keeps two piece weights nonzero, which is
  // what makes piece selection terminate.
  type Sim = g: RawSim | Live(g.pieces.keep) witness BlankSim()

  datatype Step = Step(g: Sim, ev: seq<GameEvent>)

  const BLANK_MOTION: Motion := Motion(None, 5, 0, 512, 150, false, 0, Falling, 0, 0, 0, 0, 0)
  const DEFAULT_FRAME: Frame := Frame(5, 0, 1, -1, 1, 512, 10)

  function Blank(rng: Word): (g: RawSim)
    ensures Live(g.pieces.keep)
  {
    Sim(NewBoard(false), NewStream(), rng, Tally(0, 0, 0, 0, false, 20), BLANK_MOTION, DEFAULT_FRAME,
        Curses(NoFlags(), NoDurations(), [], None), NewArsenal(), false, 0, 0)
  }

  function BlankSim(): RawSim { Blank(0) }

  predicate On(g: Sim, t: WeaponToken) { Active(g.curses.active, t) }

  // ----- spawning and falling -----

  function NewGame(seed: Word): Step { Spawn(Blank(Seeded(seed))) }

  function Spawn(g: Sim): (r: Step)
    ensures r.g == g.(pieces := r.g.pieces, rng := r.g.rng, motion := r.g.motion)
    ensures r.g.motion.slideAccum == g.motion.slideAccum && r.g.motion.phase != Sliding
  {
    var made := Create(g.pieces, g.rng, g.frame.defX, g.frame.defY);
    var x, y := g.frame.defX - made.p.rot / 2, g.frame.defY;
    var g' := g.(pieces := made.m, rng := made.rng);
    if CanMoveTo(made.p, g.board, x, y) then
      Step(g'.(motion := g.motion.(current := Some(made.p.(x := x, y := y)), x := x, y := y,
                dropping := false, dropTime := g.frame.baseDropTime, phase := Falling, dropAccum := 0)), [])
    else
      Step(g'.(motion := g.motion.(current := None, x := x, y := y, phase := Over)), [GameOver])
  }

  function StartSlide(g: Sim): (r: Sim)
    ensures r == g.(motion := r.motion)
  {
    g.(motion := g.motion.(sliding := 1, slideTime := if On(g, NO_SLIDE) then 0 else 150,
                           phase := Sliding, slideAccum := 0))
  }

  // The piece shifted to (x, y), with both copies of its position.
  function ShiftTo(g: Sim, x: int, y: int): (r: Sim)
    requires g.motion.current.Some?
    ensures r == g.(motion := r.motion)
  { g.(motion := g.motion.(current := Some(g.motion.current.value.(x := x, y := y)), x := x, y := y)) }

  predicate Fits(g: Sim, x: int, y: int)
  { g.motion.current.Some? && CanMoveTo(g.motion.current.value, g.board, x, y) }

  function DropStep(g: Sim): (r: Sim)
    ensures r == g.(motion := r.motion)
    ensures r.motion.dropAccum == g.motion.dropAccum
  {
    if g.motion.current.None? then g
    else if Fits(g, g.motion.x, g.motion.y + g.frame.deltaY) then
      ShiftTo(g, g.motion.x, g.motion.y + g.frame.deltaY)
    else StartSlide(g)
  }

  // ----- scoring -----

  // The double product clear_funds * 0.7, truncated: 0.7 is 6305039478318694 / 2^53, and
  // the exact product is rounded to 53 significant bits, ties to even.
  function MondaleKept(clear: int): int
  {
    if clear < 0 then -(Rounded53((-clear) * 6305039478318694) / 0x20_0000_0000_0000)
    else Rounded53(clear * 6305039478318694) / 0x20_0000_0000_0000
  }

  // The power of two a value is measured in so that it has at most 53 bits.
  function Ulp(p: nat): (u: int)
    ensures u > 0
  { if p < 0x20_0000_0000_0000 then 1 else 2 * Ulp(p / 2) }

  function Rounded53(p: nat): nat
  {
    var u := Ulp(p);
    var q, r := p / u, p % u;
    if 2 * r > u || (2 * r == u && q % 2 == 1) then (q + 1) * u else q * u
  }

  // A clear pays the player, less the Mondale tax, which is announced for the attacker.
  function CreditClear(g: Sim, clear: int): (r: Step)
    ensures r.g == g.(tally := g.tally.(funds := r.g.tally.funds))
  {
    if On(g, MONDALE) then
      var kept := MondaleKept(clear);
      Step(g.(tally := g.tally.(funds := g.tally.funds + kept)),
           if clear - kept != 0 then [FundsStolen(clear - kept)] else [])
    else Step(g.(tally := g.tally.(funds := g.tally.funds + clear)), [])
  }

  // The bazaar opens when the combined lines pass a multiple of 20.
  function UpdateBazaar(g: Sim): (r: Step)
    ensures r.g == g.(tally := g.tally.(inBazaar := r.g.tally.inBazaar, tilBazaar := r.g.tally.tilBazaar))
  {
    var til := 20 - (g.tally.opLines + g.tally.lines) % 20;
    if til > g.tally.tilBazaar then
      Step(g.(tally := g.tally.(inBazaar := true, tilBazaar := til)), [EnterBazaar])
    else Step(g.(tally := g.tally.(tilBazaar := til)), [])
  }

  function Announce(g: Sim): GameEvent { Scored(g.tally.score, g.tally.lines, g.tally.funds) }

  // ----- weapons turning on and off -----

  function ApplyOff(g: Sim, t: WeaponToken): (r: Sim)
    ensures r == g.(curses := g.curses.(active := r.curses.active), board := r.board, pieces := r.pieces,
      frame := r.frame)
  {
    var b := RevertEffect(g.board, t);
    var g' := g.(curses := g.curses.(active := SetFlag(g.curses.active, t, false)),
                 board := b.(active := SetFlag(b.active, t, false)),
                 pieces := StreamOff(g.pieces, t));
    if t == UPBYSIDE then
      g'.(frame := g.frame.(defX := 5, defY := 0, deltaY := 1, leftX := -1, rightX := 1))
    else if t == SPEEDY then g'.(frame := g.frame.(baseDropTime := g.frame.baseDropTime * 2))
    else if t == MEADOW then
      g'.(frame := g.frame.(baseDropTime := g.frame.baseDropTime / 2, fastDropTime := g.frame.fastDropTime / 2))
    else g'
  }

  // One weapon's remaining lines wear down; at zero it turns off.
  function Worn(g: Sim, lines: int, i: WeaponToken): (r: Sim)
    ensures r == g.(curses := g.curses.(active := r.curses.active, remaining := r.curses.remaining),
      board := r.board, pieces := r.pieces, frame := r.frame)
  {
    if g.curses.remaining[i] == 0 then g
    else
      var left := Max(g.curses.remaining[i] - lines, 0);
      var g' := g.(curses := g.curses.(remaining := g.curses.remaining[i := left]));
      if left == 0 then ApplyOff(g', i) else g'
  }

  function TickDurations(g: Sim, lines: int, i: nat): (r: Sim)
    requires i <= MAX_WEAPONS
    ensures r == g.(curses := g.curses.(active := r.curses.active, remaining := r.curses.remaining),
      board := r.board, pieces := r.pieces, frame := r.frame)
    decreases MAX_WEAPONS - i
  { if i == MAX_WEAPONS then g else TickDurations(Worn(g, lines, i), lines, i + 1) }

  // Lines cleared: the bazaar trigger sees them before the durations do.
  function CountLines(g: Sim, lines: int): (r: Step)
    ensures r.g == g.(tally := r.g.tally, curses := g.curses.(active := r.g.curses.active,
      remaining := r.g.curses.remaining), board := r.g.board, pieces := r.g.pieces, frame := r.g.frame)
  {
    var u := UpdateBazaar(g);
    Step(TickDurations(u.g, lines, 0), u.ev)
  }

  // What a weapon does to the movement frame, the clocks and the funds as it turns on.
  // Speedy and Meadow scale the clock only when they were off before.
  function OnArm(g: Sim, t: WeaponToken, was: bool): (r: Sim)
    ensures r == g.(frame := r.frame, tally := r.tally, motion := g.motion.(dropTime := r.motion.dropTime))
  {
    if t == UPBYSIDE then g.(frame := g.frame.(defY := 24, deltaY := -1, leftX := 1, rightX := -1))
    else if t == SPEEDY && !was then
      var base := g.frame.baseDropTime / 2;
      g.(frame := g.frame.(baseDropTime := base),
         motion := g.motion.(dropTime := if g.motion.dropTime != g.frame.fastDropTime then Max(base, 1)
                                         else g.motion.dropTime))
    else if t == MEADOW && !was then
      var base, fast := g.frame.baseDropTime * 2, g.frame.fastDropTime * 2;
      g.(frame := g.frame.(baseDropTime := base, fastDropTime := fast),
         motion := g.motion.(dropTime := if g.motion.dropTime != fast then base else g.motion.dropTime))
    else if t == KEATING then g.(tally := g.tally.(funds := 0))
    else if t == REAGAN then g.(tally := g.tally.(funds := -g.tally.funds))
    else g
  }

  // Flag, duration and board mutation of a weapon turning on.
  function Engage(g: Sim, t: WeaponToken): (r: (Sim, LineClear))
  {
    var e := ApplyEffect(g.board.(active := SetFlag(g.board.active, t, true)), t, g.rng);
    (g.(curses := g.curses.(active := SetFlag(g.curses.active, t, true),
                            remaining := g.curses.remaining[t := g.curses.remaining[t] + Duration(t)]),
        board := e.b, rng := e.rng),
     e.clear)
  }

  // Rows that the bottle's walls complete are earned like any other clear.
  function EarnBottle(g: Sim, clear: LineClear): (r: Step)
    ensures r.g == g.(tally := r.g.tally, curses := g.curses.(active := r.g.curses.active,
      remaining := r.g.curses.remaining), board := r.g.board, pieces := r.g.pieces, frame := r.g.frame)
  {
    if clear.lines == 0 then Step(g, [])
    else
      var c := CreditClear(g.(tally := g.tally.(lines := g.tally.lines + clear.lines)), clear.funds);
      var l := CountLines(c.g, clear.lines);
      Step(l.g, c.ev + l.ev + [Announce(l.g)])
  }

  function ApplyOn(g: Sim, t: WeaponToken): (r: Step)
    ensures r.g == g.(tally := r.g.tally, curses := g.curses.(active := r.g.curses.active,
      remaining := r.g.curses.remaining), board := r.g.board, rng := r.g.rng, pieces := r.g.pieces,
        frame := r.g.frame, motion := g.motion.(dropTime := r.g.motion.dropTime))
  {
    var e := Engage(g, t);
    var s := EarnBottle(e.0, e.1);
    Step(OnArm(s.g.(pieces := StreamOn(s.g.pieces, t)), t, On(g, t)), s.ev)
  }

  function ApplyAll(g: Sim, ts: seq<WeaponToken>): (r: Step)
    ensures r.g == g.(tally := r.g.tally, curses := g.curses.(active := r.g.curses.active,
      remaining := r.g.curses.remaining), board := r.g.board, rng := r.g.rng, pieces := r.g.pieces,
        frame := r.g.frame, motion := g.motion.(dropTime := r.g.motion.dropTime))
    decreases |ts|
  {
    if ts == [] then Step(g, [])
    else
      var s := ApplyOn(g, ts[0]);
      var r := ApplyAll(s.g, ts[1..]);
      Step(r.g, s.ev + r.ev)
  }

  function ForceOff(g: Sim, t: WeaponToken): (r: Sim)
    ensures r == g.(curses := g.curses.(active := r.curses.active, remaining := r.curses.remaining),
      board := r.board, pieces := r.pieces, frame := r.frame)
  {
    var g' := if On(g, t) then ApplyOff(g, t) else g;
    g'.(curses := g'.curses.(remaining := g'.curses.remaining[t := 0]))
  }

  // ----- the exchanged board of Swap Meet -----

  function ExportRow(r: Row, n: nat): (q: seq<int>)
    requires n <= 10
    ensures |q| == 4 * n
  { if n == 0 then [] else ExportRow(r, n - 1) + EncodeSquare(r[n - 1]) }

  function ExportCells(c: Grid, n: nat): (q: seq<int>)
    requires n <= 28
    ensures |q| == 40 * n
  { if n == 0 then [] else ExportCells(c, n - 1) + ExportRow(c[n - 1], 10) }

  function ExportBoard(b: Board): (q: seq<int>)
    ensures |q| == 1120
  { ExportCells(b.cells, 28) }

  function ImportSquare(d: seq<int>, x: int, y: int): Square
    requires |d| == 1120 && InBounds(x, y)
  {
    var k := 40 * y + 4 * x;
    DecodeSquare(d[k], d[k + 1], d[k + 2], d[k + 3])
  }

  function ImportRow(d: seq<int>, y: int): Row
    requires |d| == 1120 && 0 <= y < 28
  { seq(10, x requires 0 <= x < 10 => ImportSquare(d, x, y)) }

  function ImportGrid(d: seq<int>): Grid
    requires |d| == 1120
  { seq(28, y requires 0 <= y < 28 => ImportRow(d, y)) }

  // An export of the wrong length is ignored.
  function ImportBoard(b: Board, d: seq<int>): Board
  { if |d| == 1120 then b.(cells := ImportGrid(d)) else b }

  function InstallSwap(g: Sim): (r: Sim)
    ensures r == g.(curses := r.curses, board := r.board, pieces := r.pieces, frame := r.frame)
    ensures r.curses.pending == g.curses.pending && r.curses.swap.None?
  {
    if g.curses.swap.None? then g
    else
      var g' := g.(board := ImportBoard(g.board, g.curses.swap.value), curses := g.curses.(swap := None));
      ForceOff(ForceOff(g', BOTTLE), UPBYSIDE)
  }

  // Weapons launched at this player take effect at its lock, then a swapped board does.
  function FlushPending(g: Sim): (r: Step)
    ensures r.g == g.(tally := r.g.tally, curses := r.g.curses, board := r.g.board, rng := r.g.rng,
      pieces := r.g.pieces, frame := r.g.frame, motion := g.motion.(dropTime := r.g.motion.dropTime))
    ensures r.g.curses.pending == [] && r.g.curses.swap.None?
  {
    var s := ApplyAll(g.(curses := g.curses.(pending := [])), g.curses.pending);
    Step(InstallSwap(s.g), s.ev)
  }

  // ----- locking -----

  // The piece landed and cleared rows paid for, up to the score announcement.
  function LockPiece(g: Sim): (r: Step)
    requires g.motion.current.Some?
    ensures r.g == g.(tally := r.g.tally, curses := g.curses.(active := r.g.curses.active,
      remaining := r.g.curses.remaining), board := r.g.board, pieces := r.g.pieces, frame := r.g.frame,
        motion := g.motion.(current := None))
  {
    var p := g.motion.current.value;
    var slid := g.motion.dropping && g.motion.sliding <= 1
                && !CanMoveTo(p, g.board, g.motion.x, g.motion.y - g.frame.deltaY);
    var (b, clear) := CheckLines(Land(p, g.board));
    var c := CreditClear(g.(board := b, tally := g.tally.(lines := g.tally.lines + clear.lines),
                            motion := g.motion.(current := None)), clear.funds);
    var (b', why) := FlushIdiot(b);
    var g' := c.g.(board := b');
    var l := if clear.lines > 0 then CountLines(g', clear.lines) else Step(g', []);
    Step(l.g,
         (if slid then [Airslide] else []) + c.ev + [Locked(clear.lines, clear.value, clear.funds)]
         + (if why.Some? then [Idiot(why.value)] else []) + l.ev + [Announce(l.g)])
  }

  // What the lock hash is fed.
  function HashedBytes(g: Sim): seq<Hash.Byte>
  {
    Hash.Words(ExportBoard(g.board), 4) + Hash.Bytes(g.tally.score, 8) + Hash.Bytes(g.tally.lines, 8)
    + Hash.Words(ExportArsenal(g.arsenal, 10), 4) + Hash.Words(g.curses.active, 4)
    + Hash.Words(g.curses.remaining, 4) + Hash.Words(g.curses.pending, 4)
    + (if g.curses.swap.Some? then [1] + Hash.Words(g.curses.swap.value, 4) else [0])
    + Hash.Bytes(g.rng, 8)
  }

  function HashOf(g: Sim): int { Hash.Fnv(Hash.OFFSET, HashedBytes(g)) }

  function ExportArsenal(a: Arsenal, n: nat): (q: seq<int>)
    requires n <= 10
    ensures |q| == 2 * n
  {
    if n == 0 then []
    else ExportArsenal(a, n - 1) + [if a.rep[n - 1].Some? then a.rep[n - 1].value else -1, a.quantity[n - 1]]
  }

  function MarkLock(g: Sim): Sim
  {
    var g' := g.(lockSeq := g.lockSeq + 1);
    g'.(lockHash := HashOf(g'))
  }

  function Lock(g: Sim): (r: Step)
    requires g.motion.current.Some?
    ensures r.g.lockSeq == g.lockSeq + 1
    ensures r.g.arsenal == g.arsenal && r.g.paused == g.paused
    ensures r.g.motion.slideAccum == g.motion.slideAccum && r.g.motion.phase != Sliding
  {
    var l := LockPiece(g);
    var f := FlushPending(l.g);
    var s := Spawn(f.g);
    var m := MarkLock(s.g);
    Step(m.(motion := m.motion.(sliding := 0)), l.ev + f.ev + s.ev)
  }

  // The slide has run out: lock, or fall on if the piece was moved over a gap.
  function Place(g: Sim): (r: Step)
    ensures g.motion.current.Some? ==> r.g.motion.phase != Sliding
    ensures r.g.motion.slideAccum == g.motion.slideAccum
  {
    if g.motion.current.None? then Step(g, [])
    else if !Fits(g, g.motion.x, g.motion.y + g.frame.deltaY) then Lock(g)
    else
      var g' := ShiftTo(g, g.motion.x, g.motion.y + g.frame.deltaY);
      Step(g'.(motion := g'.motion.(phase := Falling, dropAccum := 0, sliding := 0)), [])
  }

  // ----- the clock -----

  function RotateNow(g: Sim): (r: Sim)
    ensures r == g.(motion := g.motion.(current := r.motion.current))
  {
    if g.motion.current.None? then g
    else g.(motion := g.motion.(current := Some(Rotate(g.motion.current.value, g.board, false))))
  }

  function Hatter(g: Sim): (r: Sim)
    ensures r == g.(motion := r.motion)
    decreases g.motion.hatterAccum
  {
    if g.motion.hatterAccum < 20 then g
    else Hatter(RotateNow(g.(motion := g.motion.(hatterAccum := g.motion.hatterAccum - 20))))
  }

  function SlickStep(g: Sim): (r: Sim)
    ensures r == g.(motion := r.motion)
    ensures r.motion.slickAccum == g.motion.slickAccum
  {
    var dir := if g.motion.slickDir == 0 then g.frame.leftX else g.frame.rightX;
    if g.motion.current.None? then g
    else if Fits(g, g.motion.x + dir, g.motion.y) then ShiftTo(g, g.motion.x + dir, g.motion.y)
    else g.(motion := g.motion.(slickDir := if g.motion.slickDir == 0 then 1 else 0))
  }

  function Slick(g: Sim): (r: Sim)
    ensures r == g.(motion := r.motion)
    decreases g.motion.slickAccum
  {
    if g.motion.slickAccum < 20 then g
    else Slick(SlickStep(g.(motion := g.motion.(slickAccum := g.motion.slickAccum - 20))))
  }

  function TickWeapons(g: Sim, dt: int): (r: Sim)
    ensures r == g.(motion := r.motion)
  {
    var h := if On(g, HATTER) then Hatter(g.(motion := g.motion.(hatterAccum := g.motion.hatterAccum + dt))) else g;
    if On(h, SLICK) && h.motion.phase == Falling && !h.motion.dropping then
      Slick(h.(motion := h.motion.(slickAccum := h.motion.slickAccum + dt)))
    else h
  }

  function Fall(g: Sim, step: int): (r: Sim)
    requires step >= 1
    ensures r == g.(motion := r.motion)
    decreases g.motion.dropAccum
  {
    if g.motion.phase != Falling || g.motion.dropAccum < step then g
    else Fall(DropStep(g.(motion := g.motion.(dropAccum := g.motion.dropAccum - step))), step)
  }

  function Slide(g: Sim, step: int): Step
    requires step >= 0
    decreases g.motion.slideAccum
  {
    if g.motion.phase != Sliding || (step > 0 && g.motion.slideAccum < step) then Step(g, [])
    else if step == 0 then Place(g)
    else
      var s := Place(g.(motion := g.motion.(slideAccum := g.motion.slideAccum - step)));
      var r := Slide(s.g, step);
      Step(r.g, s.ev + r.ev)
  }

  predicate Halted(g: Sim) { g.paused || g.tally.inBazaar || g.motion.phase == Over }

  function Tick(g: Sim, dt: int): Step
  {
    if Halted(g) || dt <= 0 then Step(g, [])
    else
      var w := TickWeapons(g, dt);
      match w.motion.phase
      case Falling =>
        Step(Fall(w.(motion := w.motion.(dropAccum := w.motion.dropAccum + dt)), Max(w.motion.dropTime, 1)), [])
      case Sliding =>
        Slide(w.(motion := w.motion.(slideAccum := w.motion.slideAccum + dt)), Max(w.motion.slideTime, 0))
      case Over => Step(w, [])
  }

  // ----- inputs -----

  // A sideways move during the lock delay counts toward the slide.
  function MoveBy(g: Sim, dx: int): (r: Sim)
    ensures r == g.(motion := r.motion)
  {
    if g.paused || g.motion.phase == Over || !Fits(g, g.motion.x + dx, g.motion.y) then g
    else
      var g' := ShiftTo(g, g.motion.x + dx, g.motion.y);
      g'.(motion := g'.motion.(sliding := if g.motion.sliding != 0 then g.motion.sliding + 1 else 0))
  }

  function RotateInput(g: Sim): (r: Sim)
    ensures r == g.(motion := r.motion)
  { if g.paused || g.motion.phase == Over then g else RotateNow(g) }

  predicate EngagesDrop(g: Sim)
  { !Halted(g) && g.motion.dropTime != g.frame.fastDropTime }

  function FastDrop(g: Sim): (r: Sim)
    ensures r == g.(motion := r.motion)
  {
    if Halted(g) then g
    else if EngagesDrop(g) then
      g.(motion := g.motion.(dropping := true, dropTime := g.frame.fastDropTime, dropAccum := 0))
    else g.(motion := g.motion.(dropping := true))
  }

  // A hard drop pays by the depth still to fall, the computer's pays a flat half height.
  function BeginDrop(g: Sim): Sim
  {
    if EngagesDrop(g) then FastDrop(g).(tally := g.tally.(score := g.tally.score + 28 - g.motion.y))
    else FastDrop(g)
  }

  function AiBeginDrop(g: Sim): Sim
  {
    if EngagesDrop(g) then FastDrop(g).(tally := g.tally.(score := g.tally.score + 14)) else FastDrop(g)
  }

  function SoftDrop(g: Sim): (r: Sim)
    ensures r == g.(motion := r.motion)
  {
    if g.paused || g.tally.inBazaar || g.motion.phase != Falling then g
    else
      var d := DropStep(g);
      d.(motion := d.motion.(dropAccum := 0))
  }

  function LaunchWeapon(g: Sim, slot: nat): Step
  {
    if g.tally.inBazaar || g.motion.phase == Over || TokenAt(g.arsenal, slot).None? then Step(g, [])
    else Step(g.(arsenal := UseSlot(g.arsenal, slot)), [WeaponLaunched(TokenAt(g.arsenal, slot).value)])
  }

  function BazaarPrice(g: Sim, t: WeaponToken): int
  { if On(g, CARTER) then Price(t) * 2 else Price(t) }

  predicate BuyAccepted(g: Sim, t: WeaponToken)
  { g.tally.inBazaar && g.tally.funds >= BazaarPrice(g, t) && Buy(g.arsenal, t).1 }

  function BuyWeapon(g: Sim, t: WeaponToken): Sim
  {
    if BuyAccepted(g, t) then
      g.(arsenal := Buy(g.arsenal, t).0, tally := g.tally.(funds := g.tally.funds - BazaarPrice(g, t)))
    else g
  }

  predicate SellAccepted(g: Sim, t: WeaponToken)
  { g.tally.inBazaar && Sell(g.arsenal, t).1 }

  function SellWeapon(g: Sim, t: WeaponToken): Sim
  {
    if SellAccepted(g, t) then
      g.(arsenal := Sell(g.arsenal, t).0, tally := g.tally.(funds := g.tally.funds + BazaarPrice(g, t)))
    else g
  }

  function LeaveBazaar(g: Sim): Sim { g.(tally := g.tally.(inBazaar := false)) }

  // ----- effects from the other player -----

  function ReceiveWeapon(g: Sim, t: WeaponToken): Sim
  { g.(curses := g.curses.(pending := g.curses.pending + [t])) }

  function QueueSwap(g: Sim, cells: seq<int>): Sim
  { g.(curses := g.curses.(swap := Some(cells))) }

  // The opponent's line total. Under Lawyers every new line raises this board.
  function ReceiveOpLines(g: Sim, opLines: int): Step
  {
    var n := if On(g, LAWYERS) then Max(opLines - g.tally.opLines, 0) else 0;
    var r := InsertLines(g.board, g.rng, n);
    UpdateBazaar(g.(board := r.0, rng := r.1, tally := g.tally.(opLines := opLines)))
  }

  function AddFunds(g: Sim, amount: int): Step
  {
    if amount == 0 then Step(g, [])
    else
      var g' := g.(tally := g.tally.(funds := g.tally.funds + amount));
      Step(g', [Announce(g')])
  }

  function GrantWeapon(g: Sim, t: WeaponToken): Sim { g.(arsenal := Buy(g.arsenal, t).0) }
}
