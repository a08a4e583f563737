/**
 * The telemetry line graphs: each graph kind keeps a bounded first-in
 * first-out buffer of samples (`[x, value]` points). The x coordinates are
 * screen positions in 0..10; each new sample enters at x = 10 and the older
 * ones are re-spaced evenly to its left. Single-precision arithmetic is
 * modelled on reals.
 */
module Graphs {

  datatype Point = Point(x: real, y: real)

  /** The seven graph kinds; each is its own component type. */
  datatype GraphKind = Speed | RotVel | XPos | YPos | XVel | YVel | Rot

  /** The display name of each kind. */
  function GraphName(k: GraphKind): string {
    match k
    case Speed => "Speed"
    case RotVel => "Rotational Velocity"
    case XPos => "X Position"
    case YPos => "Y Position"
    case XVel => "X Velocity"
    case YVel => "Y Velocity"
    case Rot => "Rotation"
  }

  /** Different kinds have different names. */
  lemma GraphNamesDistinct(a: GraphKind, b: GraphKind)
    ensures GraphName(a) == GraphName(b) <==> a == b
  {
    if a != b {
      var na, nb := GraphName(a), GraphName(b);
      assert |na| != |nb| || na[0] != nb[0] || na[2] != nb[2];
    }
  }

  /** Samples a default graph holds at most one fewer than: five seconds at sixty frames. */
  const DefaultMaxLen: nat := 300

  /** The values of a run of points, in order. */
  function Ys(d: seq<Point>): (r: seq<real>)
    ensures |r| == |d|
    ensures forall i :: 0 <= i < |d| ==> r[i] == d[i].y
  {
    seq(|d|, i requires 0 <= i < |d| => d[i].y)
  }

  /** `s` without its first element; nothing happens to an empty run. */
  function DropFront<T>(s: seq<T>): (r: seq<T>)
    ensures s == [] ==> r == []
    ensures s != [] ==> [s[0]] + r == s
  {
    if s == [] then [] else s[1..]
  }

  /** The spacing of the points: the ten-unit width divided by the capacity. */
  function Step(maxLen: nat): real
    requires maxLen >= 1
  {
    10.0 / (maxLen as real)
  }

  /** The existing points re-spaced: point `i` moves to `i * (10 / maxLen)`, its value untouched. */
  function Respaced(d: seq<Point>, maxLen: nat): (r: seq<Point>)
    requires maxLen >= 1
    ensures |r| == |d|
    ensures forall i :: 0 <= i < |d| ==> r[i] == Point(Step(maxLen) * (i as real), d[i].y)
  {
    seq(|d|, i requires 0 <= i < |d| => Point(Step(maxLen) * (i as real), d[i].y))
  }

  /**
   * The buffer after one sample: re-spaced, then the new point at x = 10
   * appended, the oldest point dropped first unless the buffer is still
   * growing.
   */
  function Appended(d: seq<Point>, maxLen: nat, v: real): (r: seq<Point>)
    requires maxLen >= 1
    ensures |r| == if |d| + 1 < maxLen then |d| + 1 else if d == [] then 1 else |d|
    ensures r[|r| - 1] == Point(10.0, v)
  {
    var spaced := Respaced(d, maxLen);
    if |d| + 1 < maxLen then spaced + [Point(10.0, v)] else DropFront(spaced) + [Point(10.0, v)]
  }

  /** Whether one sample makes the buffer longer. */
  predicate Grows(d: seq<Point>, maxLen: nat) {
    |d| + 1 < maxLen
  }

  /**
   * The values after one sample: the old values in order, the oldest one
   * gone when the buffer was full, then the new value.
   */
  lemma AppendedValues(d: seq<Point>, maxLen: nat, v: real)
    requires maxLen >= 1
    ensures Ys(Appended(d, maxLen, v)) == (if Grows(d, maxLen) then Ys(d) else DropFront(Ys(d))) + [v]
  {
    var r := Appended(d, maxLen, v);
    var want := (if Grows(d, maxLen) then Ys(d) else DropFront(Ys(d))) + [v];
    assert |Ys(r)| == |want|;
    forall i | 0 <= i < |r| ensures Ys(r)[i] == want[i] {
      if i < |r| - 1 && !Grows(d, maxLen) {
        assert DropFront(Ys(d))[i] == Ys(d)[i + 1];
        assert DropFront(Respaced(d, maxLen))[i] == Respaced(d, maxLen)[i + 1];
      }
    }
  }

  /**
   * The x coordinates after one sample: every point but the new one sits at
   * its old index times `10 / maxLen`, so after a drop the survivors keep
   * the spacing of their old positions, one step right of their new index.
   */
  lemma AppendedPositions(d: seq<Point>, maxLen: nat, v: real, i: nat)
    requires maxLen >= 1
    requires i + 1 < |Appended(d, maxLen, v)|
    ensures Appended(d, maxLen, v)[i].x == Step(maxLen) * ((if Grows(d, maxLen) then i else i + 1) as real)
  {
    if !Grows(d, maxLen) {
      assert DropFront(Respaced(d, maxLen))[i] == Respaced(d, maxLen)[i + 1];
    }
  }

  /** A buffer below `maxLen - 1` points stays below it. */
  lemma AppendedBound(d: seq<Point>, maxLen: nat, v: real)
    requires maxLen >= 2 && |d| <= maxLen - 1
    ensures |Appended(d, maxLen, v)| <= maxLen - 1
  {
  }

  /** The buffer after a run of samples, oldest first. */
  function AppendedAll(d: seq<Point>, maxLen: nat, vs: seq<real>): seq<Point>
    requires maxLen >= 1
    decreases |vs|
  {
    if vs == [] then d else AppendedAll(Appended(d, maxLen, vs[0]), maxLen, vs[1..])
  }

  /** The last `n` elements of `s`, or all of them when there are fewer. */
  function Recent<T>(s: seq<T>, n: nat): (r: seq<T>)
    ensures |r| == if |s| <= n then |s| else n
  {
    if |s| <= n then s else s[|s| - n..]
  }

  /** Keeping the most recent `n` before appending more does not change the most recent `n` after. */
  lemma RecentOfRecent<T>(s: seq<T>, t: seq<T>, n: nat)
    ensures Recent(Recent(s, n) + t, n) == Recent(s + t, n)
  {
    if |s| > n {
      var u := s[|s| - n..];
      var left := Recent(u + t, n);
      var right := Recent(s + t, n);
      assert |u + t| >= n && |s + t| > n;
      assert left == (u + t)[|t|..];
      assert right == (s + t)[|s| + |t| - n..];
      forall i | 0 <= i < n ensures left[i] == right[i] {
        if i < n - |t| {
          assert left[i] == u[i + |t|] == s[|s| - n + i + |t|];
        } else {
          assert left[i] == t[i + |t| - n];
        }
      }
    }
  }

  /** One sample into a buffer that respects the bound: the window of the most recent values moves by one. */
  lemma AppendedRecent(d: seq<Point>, maxLen: nat, v: real)
    requires maxLen >= 2 && |d| <= maxLen - 1
    ensures |Appended(d, maxLen, v)| <= maxLen - 1
    ensures Ys(Appended(d, maxLen, v)) == Recent(Ys(d) + [v], maxLen - 1)
  {
    AppendedValues(d, maxLen, v);
    AppendedBound(d, maxLen, v);
    if !Grows(d, maxLen) {
      assert |Ys(d)| == maxLen - 1;
      assert DropFront(Ys(d)) + [v] == (Ys(d) + [v])[1..];
    }
  }

  /** A run of samples is its first sample, then the rest. */
  lemma AppendedAllFirst(d: seq<Point>, maxLen: nat, vs: seq<real>)
    requires maxLen >= 1 && vs != []
    ensures AppendedAll(d, maxLen, vs) == AppendedAll(Appended(d, maxLen, vs[0]), maxLen, vs[1..])
  {
  }

  /** The window after the first sample, extended by the rest, is the window of the whole run. */
  lemma WindowShift(d: seq<Point>, maxLen: nat, vs: seq<real>)
    requires maxLen >= 2 && |d| <= maxLen - 1 && vs != []
    ensures Recent(Ys(Appended(d, maxLen, vs[0])) + vs[1..], maxLen - 1) == Recent(Ys(d) + vs, maxLen - 1)
  {
    var v, rest, n := vs[0], vs[1..], maxLen - 1;
    var d1 := Appended(d, maxLen, v);
    var w := Ys(d) + [v];
    var y1 := Ys(d1);
    assert y1 == Recent(w, n) by { AppendedRecent(d, maxLen, v); }
    assert Recent(y1 + rest, n) == Recent(w + rest, n) by { RecentOfRecent(w, rest, n); }
    assert w + rest == Ys(d) + vs;
  }

  /**
   * A sliding window: starting from a buffer that respects the bound, a run
   * of samples leaves exactly the most recent `maxLen - 1` values, in order.
   */
  lemma {:induction false} AppendedAllWindow(d: seq<Point>, maxLen: nat, vs: seq<real>)
    requires maxLen >= 2 && |d| <= maxLen - 1
    ensures Ys(AppendedAll(d, maxLen, vs)) == Recent(Ys(d) + vs, maxLen - 1)
    decreases |vs|
  {
    if vs == [] {
      assert Ys(d) + vs == Ys(d);
    } else {
      var d1 := Appended(d, maxLen, vs[0]);
      AppendedRecent(d, maxLen, vs[0]);
      AppendedAllWindow(d1, maxLen, vs[1..]);
      AppendedAllFirst(d, maxLen, vs);
      WindowShift(d, maxLen, vs);
    }
  }

  /** One graph component: its sample buffer, whether it is shown, and its capacity. */
  class LineGraph {
    var data: seq<Point>
    var shown: bool
    var maxLen: nat
    const kind: GraphKind

    /** Every method below needs a capacity of at least one, as `Default` gives. */
    predicate Valid()
      reads this
    {
      maxLen >= 1
    }

    /** An empty, shown graph holding up to 300 samples. */
    constructor Default(kind: GraphKind)
      ensures data == [] && shown && maxLen == DefaultMaxLen && this.kind == kind
      ensures Valid()
    {
      data := [];
      shown := true;
      maxLen := DefaultMaxLen;
      this.kind := kind;
    }

    /** The graph's display name. */
    function Name(): string {
      GraphName(kind)
    }

    /**
     * The buffer as the two slices it is stored in; `wrap` is where the
     * ring buffer wraps around, which the buffer's layout decides.
     */
    function Points(wrap: nat): (r: (seq<Point>, seq<Point>))
      reads this
      requires wrap <= |data|
      ensures r.0 + r.1 == data
    {
      (data[..wrap], data[wrap..])
    }

    /** Records one sample. */
    method AddVal(v: real)
      requires Valid()
      modifies this`data
      ensures data == Appended(old(data), maxLen, v)
    {
      ghost var d0 := data;
      var numVals := |data| + 1;
      var step := Step(maxLen);
      var i := 0;
      while i < |data|
        invariant 0 <= i <= |data| == |d0|
        invariant forall k :: 0 <= k < i ==> data[k] == Respaced(d0, maxLen)[k]
        invariant forall k :: i <= k < |data| ==> data[k] == d0[k]
      {
        data := data[i := Point(step * (i as real), data[i].y)];
        i := i + 1;
      }
      assert data == Respaced(d0, maxLen);
      if numVals < maxLen {
        data := data + [Point(10.0, v)];
      } else {
        if data != [] {
          data := data[1..];
        }
        data := data + [Point(10.0, v)];
      }
    }
  }

  /** Samples recorded one after another into a default graph leave the most recent 299 values. */
  lemma DefaultWindow(vs: seq<real>)
    ensures Ys(AppendedAll([], DefaultMaxLen, vs)) == Recent(vs, DefaultMaxLen - 1)
  {
    AppendedAllWindow([], DefaultMaxLen, vs);
    assert Ys([]) + vs == vs;
  }
}
