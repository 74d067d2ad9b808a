/** What a step of one game does to its line totals, its bazaar countdown and its queued
    announcements: the facts the two-player mirror rests on. */
module TallyLaws {
  import opened PieceStream
  import opened Wrappers
  import opened Weapons
  import opened Boards
  import opened Pieces
  import opened Arsenals
  import opened Engine
  import opened Inputs

  // The line total the last announcement in ev carries; l when there is none.
  function LastLines(ev: seq<GameEvent>, l: int): int
  {
    if ev == [] then l
    else if ev[|ev| - 1].Scored? then ev[|ev| - 1].totalLines
    else LastLines(ev[..|ev| - 1], l)
  }

  // Each announcement raises the line total by fewer than 20.
  predicate SmallSteps(ev: seq<GameEvent>, l: int)
  {
    ev != [] ==>
      && SmallSteps(ev[..|ev| - 1], l)
      && (ev[|ev| - 1].Scored? ==> 0 <= ev[|ev| - 1].totalLines - LastLines(ev[..|ev| - 1], l) < 20)
  }

  // The countdown shows the lines missing to the next multiple of 20.
  predicate CountdownShown(g: Sim)
  { g.tally.tilBazaar == 20 - (g.tally.opLines + g.tally.lines) % 20 }

  function Rounds(g: Sim): int { (g.tally.opLines + g.tally.lines) / 20 }

  lemma {:induction false} LastLinesConcat(a: seq<GameEvent>, b: seq<GameEvent>, l: int)
    ensures LastLines(a + b, l) == LastLines(b, LastLines(a, l))
    ensures SmallSteps(a + b, l) <==> SmallSteps(a, l) && SmallSteps(b, LastLines(a, l))
    decreases |b|
  {
    if b == [] {
      assert a + b == a;
    } else {
      assert (a + b)[..|a + b| - 1] == a + b[..|b| - 1];
      LastLinesConcat(a, b[..|b| - 1], l);
    }
  }

  // The law every step of a game obeys on its own: announcements end on the current line
  // total, the countdown stays right, the bazaar opens exactly when it is announced, and
  // then exactly when the combined lines pass a multiple of 20.
  ghost predicate Kept(g: Sim, s: Step)
  {
    && LastLines(s.ev, g.tally.lines) == s.g.tally.lines
    && s.g.tally.opLines == g.tally.opLines
    && (CountdownShown(g) ==> CountdownShown(s.g))
    && s.g.tally.inBazaar == (g.tally.inBazaar || EnterBazaar in s.ev)
    && (CountdownShown(g) && SmallSteps(s.ev, g.tally.lines) ==>
          Rounds(g) <= Rounds(s.g) && (EnterBazaar in s.ev <==> Rounds(g) < Rounds(s.g)))
  }

  lemma KeptThen(g: Sim, s: Step, t: Step)
    requires Kept(g, s) && Kept(s.g, t)
    ensures Kept(g, Step(t.g, s.ev + t.ev))
  { LastLinesConcat(s.ev, t.ev, g.tally.lines); }

  // A step that leaves the line totals and the bazaar alone and announces nothing.
  lemma KeptQuiet(g: Sim, s: Step)
    requires s.g.tally.lines == g.tally.lines && s.g.tally.opLines == g.tally.opLines
    requires s.g.tally.inBazaar == g.tally.inBazaar && s.g.tally.tilBazaar == g.tally.tilBazaar
    requires s.ev == [] || s.ev == [GameOver] || (|s.ev| == 1 && s.ev[0].WeaponLaunched?)
      || s.ev == [Announce(s.g)]
    ensures Kept(g, s)
  {
    if s.ev != [] { assert s.ev[..|s.ev| - 1] == []; }
  }

  lemma Countdown(c: int, k: int)
    requires 0 <= k < 20
    ensures (20 - (c + k) % 20 > 20 - c % 20) <==> c / 20 < (c + k) / 20
    ensures c / 20 <= (c + k) / 20
  {}

  lemma TriggerLaw(g: Sim)
    ensures var u := UpdateBazaar(g);
      && u.g.tally.lines == g.tally.lines && u.g.tally.opLines == g.tally.opLines
      && CountdownShown(u.g)
      && (u.ev == [] || u.ev == [EnterBazaar])
      && (u.ev == [EnterBazaar] <==> 20 - (g.tally.opLines + g.tally.lines) % 20 > g.tally.tilBazaar)
      && u.g.tally.inBazaar == (g.tally.inBazaar || u.ev == [EnterBazaar])
  {}

  // Lines were added, the trigger ran, and an announcement closes the step.
  lemma KeptClear(g: Sim, mid: Sim, u: Step, s: Step, pre: seq<GameEvent>, gained: nat)
    requires mid.tally.lines == g.tally.lines + gained && mid.tally.opLines == g.tally.opLines
    requires mid.tally.inBazaar == g.tally.inBazaar && mid.tally.tilBazaar == g.tally.tilBazaar
    requires u == if gained > 0 then UpdateBazaar(mid) else Step(mid, [])
    requires s.g.tally.lines == u.g.tally.lines && s.g.tally.opLines == u.g.tally.opLines
    requires s.g.tally.inBazaar == u.g.tally.inBazaar && s.g.tally.tilBazaar == u.g.tally.tilBazaar
    requires s.ev == pre + u.ev + [Announce(s.g)]
    requires forall e :: e in pre ==> !e.Scored? && e != EnterBazaar
    ensures Kept(g, s)
  {
    TriggerLaw(mid);
    hide UpdateBazaar;
    assert s.ev[..|s.ev| - 1] == pre + u.ev;
    NoScores(pre + u.ev, g.tally.lines);
    if gained < 20 { Countdown(g.tally.opLines + g.tally.lines, gained); }
    assert EnterBazaar in s.ev <==> EnterBazaar in u.ev;
  }

  lemma {:induction false} NoScores(ev: seq<GameEvent>, l: int)
    requires forall e :: e in ev ==> !e.Scored?
    ensures LastLines(ev, l) == l && SmallSteps(ev, l)
  { if ev != [] { NoScores(ev[..|ev| - 1], l); } }

  lemma EarnBottleKept(g: Sim, clear: LineClear)
    ensures Kept(g, EarnBottle(g, clear))
  {
    hide TickDurations, Kept, MondaleKept;
    if clear.lines == 0 {
      KeptQuiet(g, EarnBottle(g, clear));
    } else {
      var c := CreditClear(g.(tally := g.tally.(lines := g.tally.lines + clear.lines)), clear.funds);
      KeptClear(g, c.g, UpdateBazaar(c.g), EarnBottle(g, clear), c.ev, clear.lines);
    }
  }

  lemma ApplyOnKept(g: Sim, t: WeaponToken)
    ensures Kept(g, ApplyOn(g, t))
  {
    hide EarnBottle, ApplyEffect, StreamOn, SetFlag, Duration;
    var e := Engage(g, t);
    EarnBottleKept(e.0, e.1);
  }

  lemma {:induction false} ApplyAllKept(g: Sim, ts: seq<WeaponToken>)
    ensures Kept(g, ApplyAll(g, ts))
    decreases |ts|
  {
    hide Kept, ApplyOn;
    if ts == [] {
      KeptQuiet(g, ApplyAll(g, ts));
    } else {
      var s := ApplyOn(g, ts[0]);
      ApplyOnKept(g, ts[0]);
      ApplyAllKept(s.g, ts[1..]);
      KeptThen(g, s, ApplyAll(s.g, ts[1..]));
    }
  }

  lemma FlushKept(g: Sim)
    ensures Kept(g, FlushPending(g))
  {
    hide ApplyAll, InstallSwap;
    ApplyAllKept(g.(curses := g.curses.(pending := [])), g.curses.pending);
  }

  lemma SpawnKept(g: Sim)
    ensures Kept(g, Spawn(g))
  {
    hide Kept;
    KeptQuiet(g, Spawn(g));
  }

  lemma LockPieceKept(g: Sim)
    requires g.motion.current.Some?
    ensures Kept(g, LockPiece(g))
  {
    hide TickDurations, Kept, MondaleKept, CheckLines, Land, CanMoveTo, On;
    var p := g.motion.current.value;
    var (b, clear) := CheckLines(Land(p, g.board));
    var c := CreditClear(g.(board := b, tally := g.tally.(lines := g.tally.lines + clear.lines),
                            motion := g.motion.(current := None)), clear.funds);
    var (b', why) := FlushIdiot(b);
    var mid := c.g.(board := b');
    var pre := (if g.motion.dropping && g.motion.sliding <= 1
                   && !CanMoveTo(p, g.board, g.motion.x, g.motion.y - g.frame.deltaY) then [Airslide] else [])
      + c.ev + [Locked(clear.lines, clear.value, clear.funds)] + (if why.Some? then [Idiot(why.value)] else []);
    KeptClear(g, mid, if clear.lines > 0 then UpdateBazaar(mid) else Step(mid, []), LockPiece(g), pre, clear.lines);
  }

  lemma LockKept(g: Sim)
    requires g.motion.current.Some?
    ensures Kept(g, Lock(g))
  {
    hide LockPiece, FlushPending, Spawn, HashOf;
    var l := LockPiece(g);
    var f := FlushPending(l.g);
    var s := Spawn(f.g);
    LockPieceKept(g);
    FlushKept(l.g);
    SpawnKept(f.g);
    KeptThen(g, l, f);
    KeptThen(g, Step(f.g, l.ev + f.ev), s);
  }

  lemma PlaceKept(g: Sim)
    ensures Kept(g, Place(g))
  {
    hide Lock, CanMoveTo;
    if g.motion.current.Some? && !Fits(g, g.motion.x, g.motion.y + g.frame.deltaY) {
      LockKept(g);
    } else {
      hide Kept;
      KeptQuiet(g, Place(g));
    }
  }

  lemma {:induction false} SlideKept(g: Sim, step: int)
    requires step >= 0
    ensures Kept(g, Slide(g, step))
    decreases g.motion.slideAccum
  {
    hide Place;
    if g.motion.phase != Sliding || (step > 0 && g.motion.slideAccum < step) {
      KeptQuiet(g, Slide(g, step));
    } else if step == 0 {
      PlaceKept(g);
    } else {
      var g' := g.(motion := g.motion.(slideAccum := g.motion.slideAccum - step));
      PlaceKept(g');
      SlideKept(Place(g').g, step);
      KeptThen(g', Place(g'), Slide(Place(g').g, step));
    }
  }

  /** The law of a clock tick. */
  lemma TickKept(g: Sim, dt: int)
    ensures Kept(g, Tick(g, dt))
  {
    hide Slide, Fall, TickWeapons;
    if Halted(g) || dt <= 0 || TickWeapons(g, dt).motion.phase != Sliding {
      hide Kept;
      KeptQuiet(g, Tick(g, dt));
    } else {
      var w := TickWeapons(g, dt);
      SlideKept(w.(motion := w.motion.(slideAccum := w.motion.slideAccum + dt)), Max(w.motion.slideTime, 0));
    }
  }

  /** The law of an input: only leaving the bazaar and the opponent's score step outside it. */
  lemma InputKept(g: Sim, i: Input)
    requires !i.LeaveKey? && !i.OpScoreIn?
    ensures Kept(g, ApplySim(g, i))
  {
    hide Kept, Fits, Rotate, Buy, Sell, UseSlot, Price, On;
    KeptQuiet(g, ApplySim(g, i));
  }

  // The opponent's total arrives: the bazaar opens when the combined lines pass a multiple.
  lemma ReceiveKept(g: Sim, opLines: int)
    ensures var s := ReceiveOpLines(g, opLines);
      && s.g.tally.opLines == opLines && s.g.tally.lines == g.tally.lines
      && CountdownShown(s.g)
      && s.g.tally.inBazaar == (g.tally.inBazaar || s.ev == [EnterBazaar])
      && (s.ev == [] || s.ev == [EnterBazaar])
      && (CountdownShown(g) && 0 <= opLines - g.tally.opLines < 20 ==>
            Rounds(g) <= Rounds(s.g) && (s.ev == [EnterBazaar] <==> Rounds(g) < Rounds(s.g)))
  {
    hide InsertLines;
    if 0 <= opLines - g.tally.opLines < 20 {
      Countdown(g.tally.opLines + g.tally.lines, opLines - g.tally.opLines);
    }
  }
}
