/** The bounds-checked forward cursor over a keyframe (rust/bt-core/src/game.rs:1446-1465). */
module CursorObject {
  import opened Wrappers
  import opened Weapons
  import opened Keyframes

  class Cursor {
    const d: seq<int>
    var i: nat
    var ok: bool
    // Reads asked for so far, those past the end included.
    ghost var asked: nat

    ghost predicate Valid()
      reads this
    { i <= |d| && (if ok then i == asked else i == |d| < asked) }

    constructor (data: seq<int>)
      ensures Valid() && d == data && asked == 0
    { d, i, ok, asked := data, 0, true, 0; }

    // A read past the end yields 0 and spoils the keyframe.
    method Next() returns (v: int)
      requires Valid()
      modifies this
      ensures Valid() && v == Peek(d, old(asked)) && asked == old(asked) + 1
    {
      asked := asked + 1;
      if i < |d| {
        v := d[i];
        i := i + 1;
      } else {
        ok := false;
        v := 0;
      }
    }

    method Take(n: nat) returns (vs: seq<int>)
      requires Valid()
      modifies this
      ensures Valid() && vs == Slice(d, old(asked), n) && asked == old(asked) + n
    {
      vs := [];
      while |vs| < n
        invariant |vs| <= n && Valid() && asked == old(asked) + |vs|
        invariant forall k :: 0 <= k < |vs| ==> vs[k] == Peek(d, old(asked) + k)
      {
        var v := Next();
        vs := vs + [v];
      }
    }

    // A list of weapon tokens behind its length; refused at the first value that is none.
    method TakeTokens() returns (ts: seq<WeaponToken>, fine: bool)
      requires Valid()
      modifies this
      ensures Valid()
      ensures fine == PendingOk(d, old(asked))
      ensures fine ==> ts == RestoredPending(d, old(asked)) && asked == old(asked) + 1 + Max(Peek(d, old(asked)), 0)
    {
      ghost var o := asked;
      ts := [];
      var n := Next();
      if n < 0 || n > 1024 { return [], false; }
      while |ts| < n
        invariant |ts| <= n && Valid() && asked == o + 1 + |ts|
        invariant forall k :: 0 <= k < |ts| ==> FromIndex(IndexAt(d, o, k)) == Some(ts[k])
      {
        var v := Next();
        var t := FromIndex(As32(v));
        if t.None? {
          assert FromIndex(IndexAt(d, o, |ts|)).None?;
          return [], false;
        }
        ts := ts + [t.value];
      }
      fine := true;
    }

    // Nothing unread, nothing read that was not there.
    predicate Finished()
      requires Valid()
      reads this
      ensures Finished() <==> asked == |d|
    { ok && i == |d| }
  }
}
