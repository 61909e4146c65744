/** The four-edge structure (a UIEdgeInsets) that the native label exposes
    for its border thickness and for its padding. The native view reads and
    writes it only as a whole, so each style notification is adapted by a
    read-modify-write that replaces one edge. */
module EdgeInsets {

  datatype Edge = Top | Right | Bottom | Left

  datatype Insets = Insets(top: real, right: real, bottom: real, left: real)
  {
    /** The value of one edge. */
    function At(e: Edge): real
    {
      match e
      case Top => top
      case Right => right
      case Bottom => bottom
      case Left => left
    }

    /** The structure written back after reading this one and replacing edge
        `e` by `v`: edge `e` holds `v`, every other edge keeps what was read. */
    function Replace(e: Edge, v: real): (r: Insets)
      ensures r.At(e) == v
      ensures forall other :: other != e ==> r.At(other) == At(other)
    {
      match e
      case Top => Insets(v, right, bottom, left)
      case Right => Insets(top, v, bottom, left)
      case Bottom => Insets(top, right, v, left)
      case Left => Insets(top, right, bottom, v)
    }
  }

  const Zero := Insets(0.0, 0.0, 0.0, 0.0)

  /** Two structures that agree on every edge are the same structure. */
  lemma SameEdges(a: Insets, b: Insets)
    requires forall e :: a.At(e) == b.At(e)
    ensures a == b
  {
    assert a.At(Top) == b.At(Top) && a.At(Right) == b.At(Right);
    assert a.At(Bottom) == b.At(Bottom) && a.At(Left) == b.At(Left);
  }

  /** Setting the same edge to the same value twice is the same as once. */
  lemma ReplaceIdempotent(ins: Insets, e: Edge, v: real)
    ensures ins.Replace(e, v).Replace(e, v) == ins.Replace(e, v)
  {
  }

  /** Of two writes to the same edge, the later one wins. */
  lemma ReplaceLastWins(ins: Insets, e: Edge, v1: real, v2: real)
    ensures ins.Replace(e, v1).Replace(e, v2) == ins.Replace(e, v2)
  {
  }

  /** Writes to different edges commute. */
  lemma ReplaceCommutes(ins: Insets, e1: Edge, v1: real, e2: Edge, v2: real)
    requires e1 != e2
    ensures ins.Replace(e1, v1).Replace(e2, v2) == ins.Replace(e2, v2).Replace(e1, v1)
  {
  }

  /** Writing back the value that was read changes nothing. */
  lemma ReplaceWithSameValue(ins: Insets, e: Edge)
    ensures ins.Replace(e, ins.At(e)) == ins
  {
  }

  /** One style notification: edge `edge` is set to the effective `value`. */
  datatype EdgeWrite = EdgeWrite(edge: Edge, value: real)

  /** The native structure after a series of notifications, each handled by
      one read-modify-write, in order. */
  function Replay(ins: Insets, writes: seq<EdgeWrite>): Insets
    decreases |writes|
  {
    if writes == [] then ins
    else Replay(ins.Replace(writes[0].edge, writes[0].value), writes[1..])
  }

  /** The reference reading of a series of notifications: the value of the
      last write to `e`, or `initial` when there is none. */
  function LastWrite(writes: seq<EdgeWrite>, e: Edge, initial: real): real
    decreases |writes|
  {
    if writes == [] then initial
    else if writes[|writes| - 1].edge == e then writes[|writes| - 1].value
    else LastWrite(writes[..|writes| - 1], e, initial)
  }

  /** Whether some notification in the series targets edge `e`. */
  ghost predicate Writes(writes: seq<EdgeWrite>, e: Edge)
  {
    exists i :: 0 <= i < |writes| && writes[i].edge == e
  }

  /** Handling one more notification at the end is one more Replace. */
  lemma {:induction false} ReplaySnoc(ins: Insets, writes: seq<EdgeWrite>, w: EdgeWrite)
    ensures Replay(ins, writes + [w]) == Replay(ins, writes).Replace(w.edge, w.value)
    decreases |writes|
  {
    if writes == [] {
      assert writes + [w] == [w];
      assert [w][1..] == [];
    } else {
      assert (writes + [w])[0] == writes[0];
      assert (writes + [w])[1..] == writes[1..] + [w];
      ReplaySnoc(ins.Replace(writes[0].edge, writes[0].value), writes[1..], w);
    }
  }

  /** Read-modify-write loses no update: after any series of notifications
      every edge holds the last value written to it, or its original value. */
  lemma {:induction false} ReplayKeepsLastWrite(ins: Insets, writes: seq<EdgeWrite>, e: Edge)
    ensures Replay(ins, writes).At(e) == LastWrite(writes, e, ins.At(e))
    decreases |writes|
  {
    if writes != [] {
      var init, last := writes[..|writes| - 1], writes[|writes| - 1];
      assert writes == init + [last];
      ReplaySnoc(ins, init, last);
      ReplayKeepsLastWrite(ins, init, e);
    }
  }

  /** When every write to `e` carries `v` and there is at least one, the last
      write to `e` is `v`. */
  lemma {:induction false} LastWriteOfConsistentWrites(writes: seq<EdgeWrite>, e: Edge, initial: real, v: real)
    requires forall i :: 0 <= i < |writes| && writes[i].edge == e ==> writes[i].value == v
    requires Writes(writes, e)
    ensures LastWrite(writes, e, initial) == v
    decreases |writes|
  {
    var n := |writes|;
    if writes[n - 1].edge != e {
      var i :| 0 <= i < n && writes[i].edge == e;
      assert writes[..n - 1][i] == writes[i];
      LastWriteOfConsistentWrites(writes[..n - 1], e, initial, v);
    }
  }

  /** The four edges are notified independently and in any order; as long as
      each notification pushes the current effective value of its edge and
      every edge is notified at least once, the native structure ends up equal
      to the effective one, whatever it held before. */
  lemma ReplayReachesEffective(ins: Insets, writes: seq<EdgeWrite>, effective: Insets)
    requires forall i :: 0 <= i < |writes| ==> writes[i].value == effective.At(writes[i].edge)
    requires forall e :: Writes(writes, e)
    ensures Replay(ins, writes) == effective
  {
    forall e ensures Replay(ins, writes).At(e) == effective.At(e) {
      ReplayKeepsLastWrite(ins, writes, e);
      LastWriteOfConsistentWrites(writes, e, ins.At(e), effective.At(e));
    }
    SameEdges(Replay(ins, writes), effective);
  }

  /** Border top set to 3, then border left set to 5, on a fresh structure:
      the result is (3, 0, 0, 5) in either order. */
  lemma TopThenLeftScenario()
    ensures Zero.Replace(Top, 3.0).Replace(Left, 5.0) == Insets(3.0, 0.0, 0.0, 5.0)
    ensures Zero.Replace(Left, 5.0).Replace(Top, 3.0) == Insets(3.0, 0.0, 0.0, 5.0)
  {
  }
}
