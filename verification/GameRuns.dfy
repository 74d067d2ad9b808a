/** One game by itself, through any sequence of clock steps and actions. */
module GameRuns {
  import opened Rng
  import opened Engine
  import opened Inputs
  import opened TallyLaws
  import opened WeaponLaws

  datatype Moment = Passes(dt: int) | Does(input: Input)

  function After(g: Sim, m: Moment): Step
  { match m case Passes(dt) => Tick(g, dt) case Does(i) => ApplySim(g, i) }

  // The game at the end, and all events of the run in order.
  function Played(g: Sim, ms: seq<Moment>): Step
    decreases |ms|
  {
    if ms == [] then Step(g, [])
    else
      var s := After(g, ms[0]);
      var t := Played(s.g, ms[1..]);
      Step(t.g, s.ev + t.ev)
  }

  // The player's own actions, short of leaving the bazaar.
  predicate OwnPlay(ms: seq<Moment>)
  { forall m :: m in ms && m.Does? ==> !m.input.LeaveKey? && !m.input.OpScoreIn? }

  lemma KeptNothing(g: Sim)
    ensures Kept(g, Step(g, []))
  {}

  lemma {:induction false} PlayKept(g: Sim, ms: seq<Moment>)
    requires OwnPlay(ms)
    ensures Kept(g, Played(g, ms))
    decreases |ms|
  {
    hide Kept, Tick, ApplySim;
    if ms == [] {
      KeptNothing(g);
    } else {
      assert ms[0] in ms;
      match ms[0] {
        case Passes(dt) => TickKept(g, dt);
        case Does(i) => InputKept(g, i);
      }
      var s := After(g, ms[0]);
      assert forall m :: m in ms[1..] ==> m in ms;
      PlayKept(s.g, ms[1..]);
      KeptThen(g, s, Played(s.g, ms[1..]));
    }
  }

  /** However a player plays, the last total announced is the player's own, the opponent's is
      left alone, and with no clear of twenty lines or more the bazaar is opened, and queued as
      opened, exactly when the combined total has completed another twenty. */
  lemma PlayIsAnnounced(g: Sim, ms: seq<Moment>)
    requires OwnPlay(ms) && CountdownShown(g) && !g.tally.inBazaar
    ensures var s := Played(g, ms);
      && LastLines(s.ev, g.tally.lines) == s.g.tally.lines && s.g.tally.opLines == g.tally.opLines
      && CountdownShown(s.g) && (s.g.tally.inBazaar <==> EnterBazaar in s.ev)
      && (SmallSteps(s.ev, g.tally.lines) ==> (s.g.tally.inBazaar <==> Rounds(g) < Rounds(s.g)))
  {
    hide Played, LastLines, SmallSteps, Rounds, CountdownShown;
    PlayKept(g, ms);
  }

  lemma {:induction false} StaysConsistent(g: Sim, ms: seq<Moment>)
    requires Consistent(g)
    ensures Consistent(Played(g, ms).g)
    decreases |ms|
  {
    hide Consistent, Tick, ApplySim;
    if ms != [] {
      match ms[0] {
        case Passes(dt) => TickConsistent(g, dt);
        case Does(i) => InputConsistent(g, i);
      }
      StaysConsistent(After(g, ms[0]).g, ms[1..]);
    }
  }

  /** From a new game, through any actions and effects whatever, the weapon state is consistent. */
  lemma PlayIsConsistent(seed: Word, ms: seq<Moment>)
    ensures Consistent(Played(NewGame(seed).g, ms).g)
  {
    hide Consistent, Played, NewGame;
    NewConsistent(seed);
    StaysConsistent(NewGame(seed).g, ms);
  }
}
