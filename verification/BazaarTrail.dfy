/** Facts about the snapshots on their way to a client: acknowledgements never fall, and while
    one stays the same a side seen shopping stays shopping. */
module BazaarTrail {
  import opened Sessions

  // From a client that last saw (a, y) to a server that stands at (hi, sb).
  predicate Trail(fs: seq<Message>, a: int, y: bool, hi: int, sb: bool)
    decreases |fs|
  {
    if fs == [] then a <= hi && (a == hi && y ==> sb)
    else if fs[0].Snap? then
      && a <= fs[0].ack && (a == fs[0].ack && y ==> fs[0].you)
      && Trail(fs[1..], fs[0].ack, fs[0].you, hi, sb)
    else Trail(fs[1..], a, y, hi, sb)
  }

  lemma {:induction false} TrailEnd(fs: seq<Message>, a: int, y: bool, hi: int, sb: bool)
    requires Trail(fs, a, y, hi, sb)
    ensures a <= hi
    ensures forall f :: f in fs && f.Snap? ==> a <= f.ack <= hi
    ensures a == hi && y ==> sb && forall f :: f in fs && f.Snap? ==> f.ack == hi && f.you
    decreases |fs|
  {
    if fs != [] {
      if fs[0].Snap? { TrailEnd(fs[1..], fs[0].ack, fs[0].you, hi, sb); } else { TrailEnd(fs[1..], a, y, hi, sb); }
      assert forall f :: f in fs ==> f == fs[0] || f in fs[1..];
    }
  }

  // The server moves on: a higher acknowledgement, or the bazaar opens.
  lemma {:induction false} TrailMoves(fs: seq<Message>, a: int, y: bool, hi: int, sb: bool, hi': int, sb': bool)
    requires Trail(fs, a, y, hi, sb)
    requires hi < hi' || (hi == hi' && (sb ==> sb'))
    ensures Trail(fs, a, y, hi', sb')
    decreases |fs|
  {
    if fs != [] {
      if fs[0].Snap? { TrailMoves(fs[1..], fs[0].ack, fs[0].you, hi, sb, hi', sb'); }
      else { TrailMoves(fs[1..], a, y, hi, sb, hi', sb'); }
    }
  }

  // Messages that carry where the server stands.
  lemma {:induction false} TrailGrows(fs: seq<Message>, gs: seq<Message>, a: int, y: bool, hi: int, sb: bool)
    requires Trail(fs, a, y, hi, sb)
    requires forall g :: g in gs && g.Snap? ==> g.ack == hi && g.you == sb
    ensures Trail(fs + gs, a, y, hi, sb)
    decreases |fs| + |gs|
  {
    if fs == [] {
      assert fs + gs == gs;
      if gs != [] {
        assert gs[0] in gs;
        assert forall g :: g in gs[1..] ==> g in gs;
        assert fs + gs[1..] == gs[1..];
        if gs[0].Snap? { TrailGrows(fs, gs[1..], hi, sb, hi, sb); } else { TrailGrows(fs, gs[1..], a, y, hi, sb); }
      }
    } else {
      assert (fs + gs)[1..] == fs[1..] + gs;
      if fs[0].Snap? { TrailGrows(fs[1..], gs, fs[0].ack, fs[0].you, hi, sb); }
      else { TrailGrows(fs[1..], gs, a, y, hi, sb); }
    }
  }

  // ----- positions -----

  predicate Good(f: Message, last: int) { f.Snap? && f.ack == last && f.you }

  predicate Stale(f: Message, last: int) { f.Snap? && f.ack == last && !f.you }

  predicate Synced(f: Message) { f.Snap? && f.kf.Some? && f.you }

  predicate AllShopping(fs: seq<Message>) { forall f :: f in fs && f.Snap? ==> f.you }

  // The first snapshot that shows the bot's last input acknowledged inside the bazaar.
  function FirstGood(fs: seq<Message>, last: int): (k: nat)
    ensures k <= |fs|
    ensures k < |fs| ==> Good(fs[k], last)
    ensures k == |fs| ==> forall f :: f in fs ==> !Good(f, last)
    decreases |fs|
  { if fs == [] || Good(fs[0], last) then 0 else 1 + FirstGood(fs[1..], last) }

  // The first keyframe that puts the local game into the bazaar.
  function FirstSynced(fs: seq<Message>): (k: nat)
    ensures k <= |fs|
    ensures k < |fs| ==> Synced(fs[k])
    ensures k == |fs| ==> forall f :: f in fs ==> !Synced(f)
    decreases |fs|
  { if fs == [] || Synced(fs[0]) then 0 else 1 + FirstSynced(fs[1..]) }

  lemma {:induction false} FirstGrows(fs: seq<Message>, gs: seq<Message>, last: int)
    ensures FirstGood(fs, last) < |fs| ==> FirstGood(fs + gs, last) == FirstGood(fs, last)
    ensures FirstSynced(fs) < |fs| ==> FirstSynced(fs + gs) == FirstSynced(fs)
    decreases |fs|
  {
    if fs != [] {
      assert (fs + gs)[1..] == fs[1..] + gs;
      FirstGrows(fs[1..], gs, last);
    }
  }

  // A keyframe into the bazaar is on its way, with no snapshot of having left behind it.
  ghost predicate KeyframeComing(fs: seq<Message>)
  { exists i :: 0 <= i < |fs| && Synced(fs[i]) && AllShopping(fs[i..]) }

  lemma ComingGrows(fs: seq<Message>, gs: seq<Message>)
    requires AllShopping(gs)
    ensures KeyframeComing(fs) || KeyframeComing(gs) ==> KeyframeComing(fs + gs)
    ensures AllShopping(fs) ==> AllShopping(fs + gs)
  {
    if KeyframeComing(fs) {
      var i :| 0 <= i < |fs| && Synced(fs[i]) && AllShopping(fs[i..]);
      assert (fs + gs)[i..] == fs[i..] + gs;
      assert Synced((fs + gs)[i]);
    } else if KeyframeComing(gs) {
      var i :| 0 <= i < |gs| && Synced(gs[i]) && AllShopping(gs[i..]);
      assert (fs + gs)[|fs| + i..] == gs[i..];
      assert Synced((fs + gs)[|fs| + i]);
    }
  }

  lemma ComingShifts(fs: seq<Message>)
    requires KeyframeComing(fs)
    ensures fs != []
    ensures KeyframeComing(fs[1..]) || (Synced(fs[0]) && AllShopping(fs[1..]))
  {
    var i :| 0 <= i < |fs| && Synced(fs[i]) && AllShopping(fs[i..]);
    if i == 0 {
      assert fs[0..] == fs;
    } else {
      assert fs[1..][i - 1..] == fs[i..];
      assert Synced(fs[1..][i - 1]);
    }
  }
}
