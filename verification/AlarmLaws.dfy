/** Divergence is detected (rust/bt-netcode/src/lib.rs:283-325): two judged locks in a row whose
    hashes disagree ask for a keyframe, and a client keeps its last locks to judge. */
module AlarmLaws {
  import opened Wrappers
  import opened Engine
  import opened Inputs
  import opened VersusMatch
  import opened Prediction
  import opened PredictionLaws

  // ----- judging -----

  // No two pairs of the same lock.
  predicate Distinct(ring: seq<LockPair>)
  { forall i, j :: 0 <= i < |ring| && 0 <= j < |ring| && ring[i].no == ring[j].no ==> i == j }

  predicate Holds(ring: seq<LockPair>, no: int) { exists i :: 0 <= i < |ring| && ring[i].no == no }

  // The server's hash of q's lock is another one than ours, and not judged yet.
  predicate Disputed(c: Predictor, q: LockPair, hash: int)
  { q in c.ring && c.lastJudged != Some(q.no) && hash != q.hash }

  lemma Found(ring: seq<LockPair>, q: LockPair)
    requires Distinct(ring) && q in ring
    ensures var k := Lookup(ring, q.no, 0); k < |ring| && ring[k] == q
  {
    var i :| 0 <= i < |ring| && ring[i] == q;
    var k := Lookup(ring, q.no, 0);
    assert k <= i;
  }

  /** Two different locks in the ring, judged one after the other and both disagreeing, raise
      the alarm once: at the second when none was counted before, at the first otherwise. */
  lemma TwoDisputesAlarm(c: Predictor, q1: LockPair, h1: int, q2: LockPair, h2: int)
    requires Distinct(c.ring) && q1.no != q2.no
    requires Disputed(c, q1, h1) && Disputed(c, q2, h2)
    ensures var (c1, first) := OnLockHash(c, q1.no, h1);
      var (c2, second) := OnLockHash(c1, q2.no, h2);
      && first == (c.mismatches > 0) && second == (c.mismatches == 0)
      && c2.ring == c.ring && c2.lastJudged == Some(q2.no) && c2.p == c.p
  {
    Found(c.ring, q1);
    Found(c.ring, q2);
  }

  /** A matching hash in between starts the count anew: a dispute after it is a first one. */
  lemma AgreementRestarts(c: Predictor, q1: LockPair, q2: LockPair, h2: int)
    requires Distinct(c.ring) && q1.no != q2.no && q1 in c.ring && c.lastJudged != Some(q1.no)
    requires Disputed(c, q2, h2)
    ensures var (c1, first) := OnLockHash(c, q1.no, q1.hash);
      var (c2, second) := OnLockHash(c1, q2.no, h2);
      !first && c1.mismatches == 0 && !second && c2.mismatches == 1
  {
    Found(c.ring, q1);
    Found(c.ring, q2);
  }

  /** A lock that the ring does not hold, or that was the last one judged, changes nothing. */
  lemma NothingToJudge(c: Predictor, no: int, hash: int)
    requires !Holds(c.ring, no) || c.lastJudged == Some(no)
    ensures OnLockHash(c, no, hash) == (c, false)
  {
    var k := Lookup(c.ring, no, 0);
    if k < |c.ring| { assert c.ring[k].no == no; }
  }

  // ----- what a client's ring holds -----

  // Everything a client does between two keyframes.
  datatype Deed = Ticks(dt: int) | Sends(input: Input) | Hears(event: RelayEvent)

  function Done(c: Predictor, d: Deed): Predictor
  {
    match d
    case Ticks(dt) => ClientTick(c, dt)
    case Sends(i) => Predict(c, i)
    case Hears(e) => OnEvent(c, ToInput(e))
  }

  function Lived(c: Predictor, ds: seq<Deed>): Predictor
    decreases |ds|
  { if ds == [] then c else Lived(Done(c, ds[0]), ds[1..]) }

  // Locks in order, none later than the game's own.
  predicate Ordered(c: Predictor)
  {
    && c.lastSeen == c.p.g.lockSeq && |c.ring| <= LOCK_HISTORY
    && (forall i, j :: 0 <= i < j < |c.ring| ==> c.ring[i].no < c.ring[j].no)
    && (forall i :: 0 <= i < |c.ring| ==> c.ring[i].no <= c.p.g.lockSeq)
  }

  // The game's last lock is the newest entry.
  predicate Tops(c: Predictor)
  { c.ring != [] && c.ring[|c.ring| - 1] == LockPair(c.p.g.lockSeq, c.p.g.lockHash) }

  // A deed notes the lock it makes and keeps the entry before it; without one it keeps all.
  predicate Noted(c: Predictor, d: Predictor)
  {
    && d.mismatches == c.mismatches && d.lastJudged == c.lastJudged
    && (if d.p.g.lockSeq == c.p.g.lockSeq then d.ring == c.ring && d.p.g.lockHash == c.p.g.lockHash
        else d.p.g.lockSeq == c.p.g.lockSeq + 1 && Tops(d)
             && (Tops(c) ==> |d.ring| >= 2 && d.ring[|d.ring| - 2] == LockPair(c.p.g.lockSeq, c.p.g.lockHash)))
  }

  // A game that has moved on by one lock at most, noted.
  lemma NotesOne(c: Predictor, e: Predictor)
    requires Ordered(c) && OneLock(c.p.g, e.p.g)
    requires e.lastSeen == c.lastSeen && e.ring == c.ring
    requires e.mismatches == c.mismatches && e.lastJudged == c.lastJudged
    ensures Ordered(NoteLock(e)) && Noted(c, NoteLock(e))
  {}

  lemma DeedNotes(c: Predictor, d: Deed)
    requires Ordered(c)
    ensures Ordered(Done(c, d)) && Noted(c, Done(c, d))
  {
    hide Ordered, Noted, Tick, ApplySim, NoteLock, ShopAccepted, BazaarInput;
    match d
    case Ticks(dt) =>
      TickLocksOnce(c.p.g, dt);
      NotesOne(c, c.(p := Advance(c.p, Tick(c.p.g, dt))));
    case Sends(i) =>
      InputNeverLocks(c.p.g, i);
      if Forwards(c, i) {
        NotesOne(c, c.(p := if i.LeaveKey? then c.p else Apply(c.p, i), inputSeq := c.inputSeq + 1,
                       unacked := c.unacked + [Sent(c.inputSeq + 1, i)]));
      } else {
        Unnoted(c);
      }
    case Hears(e) =>
      InputNeverLocks(c.p.g, ToInput(e));
      NotesOne(c, c.(p := Apply(c.p, ToInput(e))));
  }

  lemma Unnoted(c: Predictor)
    ensures Noted(c, c)
  {}

  // Living on from a state whose lock is the newest entry, up to one lock later.
  lemma {:induction false} LivesOn(c: Predictor, ds: seq<Deed>)
    requires Ordered(c)
    ensures var d := Lived(c, ds);
      && Ordered(d) && d.mismatches == c.mismatches && d.lastJudged == c.lastJudged
      && d.p.g.lockSeq >= c.p.g.lockSeq
      && (d.p.g.lockSeq > c.p.g.lockSeq || Tops(c) ==> Tops(d))
      && (d.p.g.lockSeq == c.p.g.lockSeq ==> d.ring == c.ring && d.p.g.lockHash == c.p.g.lockHash)
      && (d.p.g.lockSeq == c.p.g.lockSeq + 1 && Tops(c) ==>
            |d.ring| >= 2 && d.ring[|d.ring| - 2] == LockPair(c.p.g.lockSeq, c.p.g.lockHash))
    decreases |ds|
  {
    hide Done, Ordered;
    if ds != [] {
      DeedNotes(c, ds[0]);
      LivesOn(Done(c, ds[0]), ds[1..]);
    }
  }

  // The ring is that of the last locks made since lock number `since`, eight at most.
  predicate Recent(c: Predictor, since: int)
  {
    && c.p.g.lockSeq >= since
    && |c.ring| == (if c.p.g.lockSeq - since < 8 then c.p.g.lockSeq - since else 8)
    && (forall i :: 0 <= i < |c.ring| ==> c.ring[i].no == c.p.g.lockSeq - |c.ring| + 1 + i)
  }

  lemma RecentNotes(c: Predictor, e: Predictor, since: int)
    requires Recent(c, since) && c.lastSeen == c.p.g.lockSeq && OneLock(c.p.g, e.p.g)
    requires e.lastSeen == c.lastSeen && e.ring == c.ring
    ensures Recent(NoteLock(e), since) && NoteLock(e).lastSeen == NoteLock(e).p.g.lockSeq
  {}

  lemma DeedRecent(c: Predictor, d: Deed, since: int)
    requires Recent(c, since) && c.lastSeen == c.p.g.lockSeq
    ensures Recent(Done(c, d), since) && Done(c, d).lastSeen == Done(c, d).p.g.lockSeq
  {
    hide Recent, Tick, ApplySim, NoteLock, ShopAccepted, BazaarInput;
    match d
    case Ticks(dt) =>
      TickLocksOnce(c.p.g, dt);
      RecentNotes(c, c.(p := Advance(c.p, Tick(c.p.g, dt))), since);
    case Sends(i) =>
      InputNeverLocks(c.p.g, i);
      if Forwards(c, i) {
        RecentNotes(c, c.(p := if i.LeaveKey? then c.p else Apply(c.p, i), inputSeq := c.inputSeq + 1,
                          unacked := c.unacked + [Sent(c.inputSeq + 1, i)]), since);
      }
    case Hears(e) =>
      InputNeverLocks(c.p.g, ToInput(e));
      RecentNotes(c, c.(p := Apply(c.p, ToInput(e))), since);
  }

  /** From a keyframe on a client keeps its last eight locks, no gaps between them. */
  lemma {:induction false} RemembersEight(c: Predictor, ds: seq<Deed>, since: int)
    requires Recent(c, since) && c.lastSeen == c.p.g.lockSeq
    ensures Recent(Lived(c, ds), since)
    decreases |ds|
  {
    hide Recent, Done;
    if ds != [] {
      DeedRecent(c, ds[0], since);
      RemembersEight(Done(c, ds[0]), ds[1..], since);
    }
  }

  lemma OrderedDistinct(c: Predictor)
    requires Ordered(c)
    ensures Distinct(c.ring)
  {}

  /** A client that has made two more locks since its last keyframe, and whose hashes of both are
      other than the server's, asks for a keyframe as soon as it is shown both, whatever it did
      before, between and since. */
  lemma DivergenceFound(c: Predictor, before: seq<Deed>, between: seq<Deed>, h1: int, h2: int)
    requires Ordered(c) && c.mismatches == 0
    requires var x := Lived(c, before);
      var y := Lived(x, between);
      && x.p.g.lockSeq > c.p.g.lockSeq && y.p.g.lockSeq == x.p.g.lockSeq + 1
      && h1 != x.p.g.lockHash && h2 != y.p.g.lockHash
      && c.lastJudged != Some(x.p.g.lockSeq) && c.lastJudged != Some(y.p.g.lockSeq)
    ensures var x := Lived(c, before);
      var y := Lived(x, between);
      var (y1, first) := OnLockHash(y, x.p.g.lockSeq, h1);
      !first && OnLockHash(y1, y.p.g.lockSeq, h2).1
  {
    hide Ordered, Lived, OnLockHash;
    var x := Lived(c, before);
    var y := Lived(x, between);
    LivesOn(c, before);
    LivesOn(x, between);
    OrderedDistinct(y);
    TwoDisputesAlarm(y, LockPair(x.p.g.lockSeq, x.p.g.lockHash), h1, LockPair(y.p.g.lockSeq, y.p.g.lockHash), h2);
  }

  /** A client fresh from a keyframe is one of those. */
  lemma KeyframeStartsClean(c: Predictor, ack: nat, you: bool, opp: bool, kf: Keyframe)
    ensures var c' := OnSnapshot(c, ack, you, opp, Some(kf));
      Ordered(c') && Recent(c', c'.p.g.lockSeq) && c'.mismatches == 0 && c'.lastJudged == None
  { hide ReplayTail, Unacked; }

  /** The end of a bazaar visit that a frame shows releases the client's own game, once; any other
      frame without a keyframe leaves the game alone. */
  lemma VisitEnds(c: Predictor, ack: nat, you: bool, opp: bool)
    ensures var d := OnSnapshot(c, ack, you, opp, None);
      && d.youBaz == you && d.oppBaz == opp
      && d.p.g.tally.inBazaar == (c.p.g.tally.inBazaar && !(c.youBaz && !you))
      && d.p == c.p.(g := c.p.g.(tally := c.p.g.tally.(inBazaar := d.p.g.tally.inBazaar)))
      && (forall u :: u in d.unacked <==> u in c.unacked && u.no > ack)
  { hide Unacked, Pushed; }
}
