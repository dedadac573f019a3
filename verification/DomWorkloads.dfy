/** The keyed-list workloads of the benchmark page: shuffle and reconcile, and move to the end. */
module DomWorkloads {
  import opened Common
  import opened Dom

  /** An element whose child list the page changes through the DOM. */
  class Container<T(==)> {
    var children: seq<T>

    constructor (kids: seq<T>)
      ensures children == kids
    {
      children := kids;
    }

    method Append(x: T)
      modifies this
      ensures children == AppendChild(old(children), x)
    {
      children := AppendChild(children, x);
    }

    method Insert(x: T, before: Option<T>)
      requires before.Some? ==> before.value in children && before.value != x
      modifies this
      ensures children == InsertBefore(old(children), x, before)
    {
      children := InsertBefore(children, x, before);
    }

    /** One cursor pass: a row already under the cursor stays, any other row moves before it. */
    method Reconcile(rows: array<T>)
      requires Distinct(children) && multiset(children) == multiset(rows[..])
      modifies this
      ensures children == rows[..]
    {
      ghost var order := rows[..];
      PermutationOfDistinct(children, order);
      var cursor := if |children| == 0 then None else Some(children[0]);
      for q := 0 to rows.Length
        invariant rows[..] == order && Rearranges(children, order)
        invariant children[..q] == order[..q]
        invariant cursor == if q == |children| then None else Some(children[q])
      {
        hide Distinct, InsertBefore;
        if Some(rows[q]) == cursor {
          IndexAt(children, q);
          cursor := NextSibling(children, cursor.value);
        } else {
          MoveUp(children, order, q);
          Insert(rows[q], cursor);
        }
      }
      assert children[..rows.Length] == children && order[..rows.Length] == order;
    }
  }

  /** Two orders of the same distinct elements. */
  ghost predicate Rearranges<T>(kids: seq<T>, rows: seq<T>) {
    Distinct(kids) && Distinct(rows) && |kids| == |rows| && forall x :: x in rows ==> x in kids
  }

  lemma PermutationOfDistinct<T>(kids: seq<T>, rows: seq<T>)
    requires Distinct(kids) && multiset(kids) == multiset(rows)
    ensures Rearranges(kids, rows)
  {
    assert |multiset(kids)| == |kids| && |multiset(rows)| == |rows|;
    forall x | x in rows ensures x in kids {
      assert x in multiset(rows);
    }
    forall i, j | 0 <= i < j < |rows| ensures rows[i] != rows[j] {
      if rows[i] == rows[j] {
        TwiceInRows(rows, i, j);
        DistinctCounts(kids, rows[i]);
      }
    }
  }

  lemma TwiceInRows<T>(rows: seq<T>, i: nat, j: nat)
    requires i < j < |rows| && rows[i] == rows[j]
    ensures multiset(rows)[rows[i]] >= 2
  {
    assert rows == rows[..i] + [rows[i]] + rows[i + 1..j] + [rows[j]] + rows[j + 1..];
  }

  lemma IndexAt<T>(kids: seq<T>, i: nat)
    requires Distinct(kids) && i < |kids|
    ensures IndexOf(kids, kids[i]) == i
  {}

  lemma {:induction false} DistinctCounts<T>(kids: seq<T>, x: T)
    requires Distinct(kids)
    ensures multiset(kids)[x] <= 1
  {
    if kids != [] {
      var n := |kids| - 1;
      DistinctCounts(kids[..n], x);
      assert kids == kids[..n] + [kids[n]];
      if kids[n] == x { assert x !in kids[..n]; }
    }
  }

  /** `insertBefore` of child `at` in front of an earlier child `q`. */
  lemma InsertEarlier<T>(kids: seq<T>, q: nat, at: nat)
    requires Distinct(kids) && q < at < |kids|
    ensures InsertBefore(kids, kids[at], Some(kids[q])) == kids[..q] + [kids[at]] + (kids[q..at] + kids[at + 1..])
  {
    RemoveAt(kids, at);
    var rest := kids[..at] + kids[at + 1..];
    RemovedIsDistinct(kids, at);
    assert rest[q] == kids[q];
    IndexAt(rest, q);
    assert rest[..q] == kids[..q];
    assert rest[q..] == kids[q..at] + kids[at + 1..];
  }

  lemma RemovedIsDistinct<T>(kids: seq<T>, at: nat)
    requires Distinct(kids) && at < |kids|
    ensures Distinct(kids[..at] + kids[at + 1..])
  {}

  /** Where the child at place `k` stood before child `at` moved up to place `q`. */
  function Before(k: nat, q: nat, at: nat): nat
    requires q < at
  {
    if k == q then at else if q < k <= at then k - 1 else k
  }

  lemma MovedIs<T>(kids: seq<T>, q: nat, at: nat, k: nat)
    requires q < at < |kids| && k < |kids|
    ensures var r := kids[..q] + [kids[at]] + (kids[q..at] + kids[at + 1..]);
      |r| == |kids| && Before(k, q, at) < |kids| && r[k] == kids[Before(k, q, at)]
  {}

  lemma MovedIsDistinct<T>(kids: seq<T>, q: nat, at: nat)
    requires Distinct(kids) && q < at < |kids|
    ensures var r := kids[..q] + [kids[at]] + (kids[q..at] + kids[at + 1..]);
      Distinct(r) && |r| == |kids| && forall x :: x in kids ==> x in r
  {
    var r := kids[..q] + [kids[at]] + (kids[q..at] + kids[at + 1..]);
    forall i, j | 0 <= i < j < |r| ensures r[i] != r[j] {
      MovedIs(kids, q, at, i);
      MovedIs(kids, q, at, j);
    }
    forall x | x in kids ensures x in r {
      var i :| 0 <= i < |kids| && kids[i] == x;
      var k := if i < q then i else if i == at then q else if i < at then i + 1 else i;
      MovedIs(kids, q, at, k);
    }
  }

  /** With `q` rows in place, moving row `q` before child `q` puts one more row in place. */
  lemma MoveUp<T>(kids: seq<T>, rows: seq<T>, q: nat)
    requires Rearranges(kids, rows) && q < |rows| && kids[..q] == rows[..q] && kids[q] != rows[q]
    ensures var r := InsertBefore(kids, rows[q], Some(kids[q]));
      Rearranges(r, rows) && r[..q + 1] == rows[..q + 1] &&
      if q + 1 == |r| then false else r[q + 1] == kids[q]
  {
    hide InsertBefore;
    assert rows[q] in kids;
    var at :| 0 <= at < |kids| && kids[at] == rows[q];
    assert at >= q by {
      forall k | 0 <= k < q ensures kids[k] == rows[k] {
        assert kids[..q][k] == rows[..q][k];
      }
    }
    InsertEarlier(kids, q, at);
    MovedIsDistinct(kids, q, at);
    assert rows[..q + 1] == rows[..q] + [rows[q]];
  }

  /** A draw in [0, 1) scaled to an index below `n`. */
  function Pick(draw: real, n: nat): (y: nat)
    requires 0.0 <= draw < 1.0 && n > 0
    ensures y < n
  {
    Scaled(draw, n as real);
    FloorBelow(draw * n as real, n);
    (draw * n as real).Floor
  }

  lemma FloorBelow(z: real, n: nat)
    requires 0.0 <= z < n as real
    ensures 0 <= z.Floor < n
  {
    assert z.Floor as real <= z;
  }

  lemma Scaled(draw: real, n: real)
    requires 0.0 <= draw < 1.0 && n > 0.0
    ensures 0.0 <= draw * n < n
  {
    assert (1.0 - draw) * n > 0.0;
  }

  predicate Draws(draws: seq<real>, n: nat) {
    |draws| >= n && forall i :: 0 <= i < |draws| ==> 0.0 <= draws[i] < 1.0
  }

  function Swap<T>(rows: seq<T>, x: nat, y: nat): (r: seq<T>)
    requires x < |rows| && y < |rows|
    ensures |r| == |rows|
  {
    rows[x := rows[y]][y := rows[x]]
  }

  /** The rows after places `x` down to 1 each got one of the rows up to them. */
  function ShuffledFrom<T>(rows: seq<T>, draws: seq<real>, x: nat): (r: seq<T>)
    requires Draws(draws, |rows|) && (x < |rows| || x == 0)
    ensures |r| == |rows|
    decreases x
  {
    if x == 0 then rows else ShuffledFrom(Swap(rows, x, Pick(draws[x], x + 1)), draws, x - 1)
  }

  function Shuffled<T>(rows: seq<T>, draws: seq<real>): seq<T>
    requires Draws(draws, |rows|)
  {
    ShuffledFrom(rows, draws, if |rows| == 0 then 0 else |rows| - 1)
  }

  /** In-place shuffle, from the last row down. */
  method Shuffle<T>(rows: array<T>, draws: seq<real>)
    requires Draws(draws, rows.Length)
    modifies rows
    ensures rows[..] == Shuffled(old(rows[..]), draws)
    ensures multiset(rows[..]) == multiset(old(rows[..]))
  {
    hide ShuffledFrom, Swap, Pick;
    var x := rows.Length - 1;
    ghost var was := rows[..];
    while x > 0
      invariant x < rows.Length
      invariant multiset(rows[..]) == multiset(was)
      invariant ShuffledFrom(rows[..], draws, if x < 0 then 0 else x) == Shuffled(was, draws)
    {
      var y := Pick(draws[x], x + 1);
      ghost var before := rows[..];
      ShuffledStep(before, draws, x);
      rows[x], rows[y] := rows[y], rows[x];
      SwapIs(before, rows[..], x, y);
      x := x - 1;
    }
    ShuffledNone(rows[..], draws);
  }

  lemma {:induction false} LaterDraws<T>(rows: seq<T>, draws: seq<real>, other: seq<real>, x: nat)
    requires Draws(draws, |rows|) && Draws(other, |rows|) && (x < |rows| || x == 0)
    requires forall i :: 0 <= i <= x && i < |draws| && i < |other| ==> draws[i] == other[i]
    ensures ShuffledFrom(rows, draws, x) == ShuffledFrom(rows, other, x)
    decreases x
  {
    if x > 0 { LaterDraws(Swap(rows, x, Pick(draws[x], x + 1)), draws, other, x - 1); }
  }

  /** Every index can be drawn. */
  lemma EveryIndexIsDrawn(y: nat, n: nat)
    requires y < n
    ensures var draw := y as real / n as real;
      0.0 <= draw < 1.0 && Pick(draw, n) == y
  {
    var draw := y as real / n as real;
    Divided(y as real, n as real);
    assert draw * n as real == y as real;
  }

  lemma Divided(y: real, n: real)
    requires 0.0 <= y < n
    ensures 0.0 <= y / n < 1.0 && y / n * n == y
  {}

  lemma SwapIs<T>(before: seq<T>, after: seq<T>, x: nat, y: nat)
    requires |after| == |before| && x < |before| && y < |before| && after[x] == before[y] && after[y] == before[x]
    requires forall i :: 0 <= i < |before| && i != x && i != y ==> after[i] == before[i]
    ensures after == Swap(before, x, y)
  {}

  lemma SwapParts<T>(rows: seq<T>, x: nat, y: nat)
    requires y <= x < |rows|
    ensures multiset(Swap(rows, x, y)[..x + 1]) == multiset(rows[..x + 1])
    ensures Swap(rows, x, y)[x + 1..] == rows[x + 1..] && Swap(rows, x, y)[x] == rows[y]
  {
    var a := rows[..x + 1];
    assert Swap(rows, x, y)[..x + 1] == a[x := a[y]][y := a[x]];
  }

  /** From any order, the draws can lead to any other order of the same rows. */
  lemma {:induction false} ShuffleReaches<T>(rows: seq<T>, target: seq<T>, x: nat) returns (draws: seq<real>)
    requires |rows| == |target| && (x < |rows| || x == 0)
    requires rows != [] ==> multiset(rows[..x + 1]) == multiset(target[..x + 1]) && rows[x + 1..] == target[x + 1..]
    ensures |draws| == |rows| && Draws(draws, |rows|) && ShuffledFrom(rows, draws, x) == target
    decreases x
  {
    hide ShuffledFrom, Swap, Pick;
    if x == 0 {
      draws := seq(|rows|, _ => 0.0);
      ShuffledNone(rows, draws);
      if rows != [] { SameFirst(rows, target); }
    } else {
      var y := PlaceOf(rows[..x + 1], target[..x + 1], x);
      var next := Swap(rows, x, y);
      SwapParts(rows, x, y);
      FrontIsSame(next, target, x);
      var front := ShuffleReaches(next, target, x - 1);
      EveryIndexIsDrawn(y, x + 1);
      draws := front[x := y as real / (x + 1) as real];
      LaterDraws(next, front, draws, x - 1);
      ShuffledStep(rows, draws, x);
    }
  }

  lemma ShuffledNone<T>(rows: seq<T>, draws: seq<real>)
    requires Draws(draws, |rows|)
    ensures ShuffledFrom(rows, draws, 0) == rows
  {}

  lemma ShuffledStep<T>(rows: seq<T>, draws: seq<real>, x: nat)
    requires Draws(draws, |rows|) && 0 < x < |rows|
    ensures ShuffledFrom(rows, draws, x) == ShuffledFrom(Swap(rows, x, Pick(draws[x], x + 1)), draws, x - 1)
  {}

  lemma SameFirst<T>(rows: seq<T>, target: seq<T>)
    requires |rows| == |target| > 0 && multiset(rows[..1]) == multiset(target[..1]) && rows[1..] == target[1..]
    ensures rows == target
  {
    OneIsSame(rows[..1], target[..1]);
    assert rows == rows[..1] + rows[1..] && target == target[..1] + target[1..];
  }

  lemma OneIsSame<T>(a: seq<T>, b: seq<T>)
    requires |a| == |b| == 1 && multiset(a) == multiset(b)
    ensures a == b
  {
    assert a == [a[0]] && b == [b[0]];
    assert a[0] in multiset(b);
  }

  lemma PlaceOf<T>(a: seq<T>, b: seq<T>, x: nat) returns (y: nat)
    requires |a| == |b| == x + 1 && multiset(a) == multiset(b)
    ensures y <= x && a[y] == b[x]
  {
    assert b[x] in multiset(b);
    assert b[x] in multiset(a);
    y :| 0 <= y < |a| && a[y] == b[x];
  }

  lemma FrontIsSame<T>(rows: seq<T>, target: seq<T>, x: nat)
    requires 0 < x < |rows| && |rows| == |target| && rows[x] == target[x]
    requires multiset(rows[..x + 1]) == multiset(target[..x + 1]) && rows[x + 1..] == target[x + 1..]
    ensures multiset(rows[..x]) == multiset(target[..x]) && rows[x..] == target[x..]
  {
    assert rows[..x + 1] == rows[..x] + [rows[x]] && target[..x + 1] == target[..x] + [target[x]];
    assert rows[x..] == [rows[x]] + rows[x + 1..] && target[x..] == [target[x]] + target[x + 1..];
    assert multiset(rows[..x]) == multiset(rows[..x + 1]) - multiset{rows[x]};
    assert multiset(target[..x]) == multiset(target[..x + 1]) - multiset{target[x]};
  }

  /** The shuffle gives orders of the same rows, and each of them for some draws. */
  lemma EveryOrderIsShuffled<T>(rows: seq<T>, target: seq<T>)
    requires multiset(rows) == multiset(target)
    ensures |rows| == |target| && exists draws :: Draws(draws, |rows|) && Shuffled(rows, draws) == target
  {
    assert |multiset(rows)| == |rows| && |multiset(target)| == |target|;
    var x := if |rows| == 0 then 0 else |rows| - 1;
    if rows != [] { assert rows[..x + 1] == rows && target[..x + 1] == target; }
    var draws := ShuffleReaches(rows, target, x);
  }

  /** Any number of shuffle-and-reconcile rounds: the page always ends in the order of `rows`. */
  method KeyedRounds<T(==)>(keyed: Container<T>, rows: array<T>, draws: seq<seq<real>>)
    requires keyed.children == rows[..] && Distinct(rows[..])
    requires forall s :: 0 <= s < |draws| ==> Draws(draws[s], rows.Length)
    modifies keyed, rows
    ensures keyed.children == rows[..] && Distinct(rows[..])
    ensures multiset(rows[..]) == multiset(old(rows[..]))
  {
    for s := 0 to |draws|
      invariant keyed.children == rows[..] && Distinct(rows[..])
      invariant multiset(rows[..]) == multiset(old(rows[..]))
    {
      Shuffle(rows, draws[s]);
      PermutationOfDistinct(keyed.children, rows[..]);
      keyed.Reconcile(rows);
    }
  }

  // ---------------------------------------------------------------- move to the end

  /** The list after `appendChild` of each node of `moves` in turn. */
  function AfterMoves<T(==)>(kids: seq<T>, moves: seq<T>): seq<T> {
    if moves == [] then kids else
      var n := |moves| - 1;
      AppendChild(AfterMoves(kids, moves[..n]), moves[n])
  }

  /** The children that `moves` never touches, in their first order. */
  function Untouched<T(==)>(kids: seq<T>, moves: seq<T>): seq<T> {
    if kids == [] then [] else
      (if kids[0] in moves then [] else [kids[0]]) + Untouched(kids[1..], moves)
  }

  /** The touched nodes in the order of their last touch. */
  function LastTouches<T(==)>(moves: seq<T>): seq<T> {
    if moves == [] then [] else
      (if moves[0] in moves[1..] then [] else [moves[0]]) + LastTouches(moves[1..])
  }

  lemma Concats<T>(a: seq<T>, b: seq<T>, c: seq<T>)
    ensures a + b + c == a + (b + c)
    ensures [] + b == b
  {}

  lemma RemoveCons<T>(h: T, t: seq<T>, x: T)
    ensures Remove([h] + t, x) == if h == x then t else [h] + Remove(t, x)
  {
    assert ([h] + t)[1..] == t;
  }

  lemma {:induction false} RemoveFromConcat<T>(a: seq<T>, b: seq<T>, x: T)
    ensures Remove(a + b, x) == if x in a then Remove(a, x) + b else a + Remove(b, x)
  {
    hide Remove;
    if a == [] {
      assert a + b == b;
    } else {
      var h, rest := a[0], a[1..];
      assert a == [h] + rest && a + b == [h] + (rest + b);
      RemoveFromConcat(rest, b, x);
      RemoveCons(h, rest, x);
      RemoveCons(h, rest + b, x);
      if h != x {
        assert x in a <==> x in rest;
        Concats([h], Remove(rest, x), b);
        Concats([h], rest, Remove(b, x));
      }
    }
  }

  lemma {:induction false} UntouchedMembers<T>(kids: seq<T>, moves: seq<T>, x: T)
    ensures x in Untouched(kids, moves) <==> x in kids && x !in moves
  {
    if kids != [] { UntouchedMembers(kids[1..], moves, x); }
  }

  lemma {:induction false} LastTouchMembers<T>(moves: seq<T>, x: T)
    ensures x in LastTouches(moves) <==> x in moves
  {
    if moves != [] { LastTouchMembers(moves[1..], x); }
  }

  /** One more touch of `x`: it leaves the untouched part. */
  lemma {:induction false} TouchUntouched<T>(kids: seq<T>, moves: seq<T>, x: T)
    requires Distinct(kids)
    ensures Untouched(kids, moves + [x]) == Remove(Untouched(kids, moves), x)
  {
    if kids != [] {
      var rest := kids[1..];
      assert Distinct(rest);
      TouchUntouched(rest, moves, x);
      if kids[0] == x {
        assert x !in rest;
        UntouchedMembers(rest, moves, x);
      }
      assert kids[0] in moves + [x] <==> kids[0] in moves || kids[0] == x;
      var kept := if kids[0] in moves then [] else [kids[0]];
      RemoveFromConcat(kept, Untouched(rest, moves), x);
    }
  }

  lemma LastTouchesCons<T>(m: T, rest: seq<T>)
    ensures LastTouches([m] + rest) == (if m in rest then [] else [m]) + LastTouches(rest)
  {
    assert ([m] + rest)[1..] == rest;
  }

  /** One more touch of `x`: it goes to the end of the touched part. */
  lemma {:induction false} TouchTouched<T>(moves: seq<T>, x: T)
    ensures LastTouches(moves + [x]) == Remove(LastTouches(moves), x) + [x]
  {
    if moves == [] {
      assert moves + [x] == [x];
    } else {
      hide Remove, LastTouches;
      var m, rest := moves[0], moves[1..];
      var l := LastTouches(rest);
      assert moves == [m] + rest && moves + [x] == [m] + (rest + [x]);
      TouchTouched(rest, x);
      LastTouchMembers(rest, x);
      LastTouchesCons(m, rest);
      LastTouchesCons(m, rest + [x]);
      assert m in rest + [x] <==> m in rest || m == x;
      if m in rest {
        Concats([], Remove(l, x), [x]);
        Concats([], l, [x]);
      } else {
        RemoveCons(m, l, x);
        if m == x {
          Concats([], l, [x]);
        } else {
          Concats([m], Remove(l, x), [x]);
        }
      }
    }
  }

  /** Untouched nodes keep their order in front; touched nodes follow by last touch. */
  lemma {:induction false} MoveToEndOrder<T>(kids: seq<T>, moves: seq<T>)
    requires Distinct(kids)
    ensures AfterMoves(kids, moves) == Untouched(kids, moves) + LastTouches(moves)
  {
    if moves == [] {
      NothingTouched(kids);
    } else {
      hide Untouched, LastTouches, AfterMoves, Remove;
      var n := |moves| - 1;
      var x, before := moves[n], moves[..n];
      assert moves == before + [x];
      MoveToEndOrder(kids, before);
      var u, l := Untouched(kids, before), LastTouches(before);
      AfterOneMore(kids, before, x);
      TouchUntouched(kids, before, x);
      TouchTouched(before, x);
      UntouchedMembers(kids, before, x);
      LastTouchMembers(before, x);
      RemoveFromConcat(u, l, x);
      assert Remove(u + l, x) == Remove(u, x) + Remove(l, x);
      Concats(Remove(u, x), Remove(l, x), [x]);
    }
  }

  lemma AfterOneMore<T>(kids: seq<T>, moves: seq<T>, x: T)
    ensures AfterMoves(kids, moves + [x]) == Remove(AfterMoves(kids, moves), x) + [x]
  {
    assert (moves + [x])[..|moves|] == moves;
  }

  lemma {:induction false} NothingTouched<T>(kids: seq<T>)
    ensures Untouched(kids, []) + LastTouches([]) == kids
  {
    if kids != [] { NothingTouched(kids[1..]); }
  }

  // ---------------------------------------------------------------- the update loop

  function Gcd(a: nat, b: nat): nat
    decreases b
  {
    if b == 0 then a else Gcd(b, a % b)
  }

  /** Bezout: the greatest common divisor is a combination of both. */
  lemma {:induction false} Bezout(a: nat, b: nat) returns (x: int, y: int)
    ensures a * x + b * y == Gcd(a, b)
    decreases b
  {
    if b == 0 {
      return 1, 0;
    }
    var u, v := Bezout(b, a % b);
    var q := a / b;
    assert a == q * b + a % b;
    x, y := v, u - q * v;
    assert a * x + b * y == b * u + (a - q * b) * v;
  }

  lemma BezoutScaled(d: int, m: int, stride: int, n: int, x: int, y: int)
    requires d * stride == m * n && stride * x + n * y == 1
    ensures d == n * (m * x + d * y)
  {
    assert d * (stride * x) == (d * stride) * x == (m * n) * x == n * (m * x);
    assert d * (n * y) == n * (d * y);
    assert d == d * (stride * x + n * y) == d * (stride * x) + d * (n * y);
  }

  lemma MultipleBelow(d: int, n: int, t: int)
    requires n > 0 && 0 <= d < n && d == n * t
    ensures d == 0
  {
    assert t >= 1 ==> n * t >= n;
    assert t <= -1 ==> n * t <= -n;
  }

  lemma OnlyZero(d: nat, m: int, stride: nat, n: nat, x: int, y: int)
    requires d < n && d * stride == m * n && stride * x + n * y == 1
    ensures d == 0
  {
    BezoutScaled(d, m, stride, n, x, y);
    MultipleBelow(d, n, m * x + d * y);
  }

  lemma SameResidue(a: nat, b: nat, n: nat) returns (m: int)
    requires n > 0 && a % n == b % n
    ensures b - a == m * n
  {
    m := b / n - a / n;
    assert a == a / n * n + a % n && b == b / n * n + b % n;
  }

  /** Two multiples of the stride meet modulo `n` only when the counters do. */
  lemma StrideIsInjective(stride: nat, n: nat, i: nat, j: nat)
    requires n > 0 && Gcd(stride, n) == 1 && i <= j < i + n
    requires (i * stride) % n == (j * stride) % n
    ensures i == j
  {
    var x, y := Bezout(stride, n);
    var a, b := i * stride, j * stride;
    var m := SameResidue(a, b, n);
    assert (j - i) * stride == b - a;
    OnlyZero(j - i, m, stride, n, x, y);
  }

  function Strided<T>(nodes: seq<T>, stride: nat, updates: nat): (r: seq<T>)
    requires nodes != []
    ensures |r| == updates
  {
    seq(updates, k requires 0 <= k < updates => nodes[(k * stride) % |nodes|])
  }

  lemma LastUpdatesAreDistinct<T>(nodes: seq<T>, stride: nat, updates: nat)
    requires Distinct(nodes) && nodes != [] && Gcd(stride, |nodes|) == 1 && updates >= |nodes|
    ensures Distinct(Strided(nodes, stride, updates)[updates - |nodes|..])
  {
    var n := |nodes|;
    var last := Strided(nodes, stride, updates)[updates - n..];
    forall a, b | 0 <= a < b < n ensures last[a] != last[b] {
      var i, j := updates - n + a, updates - n + b;
      if (i * stride) % n == (j * stride) % n { StrideIsInjective(stride, n, i, j); }
    }
  }

  /** Distinct members, as many as there are nodes, are all of them. */
  lemma {:induction false} FullCover<T>(nodes: seq<T>, some: seq<T>)
    requires Distinct(some) && |some| >= |nodes| && forall x :: x in some ==> x in nodes
    ensures forall x :: x in nodes ==> x in some
  {
    if exists x :: x in nodes && x !in some {
      var x :| x in nodes && x !in some;
      var i :| 0 <= i < |nodes| && nodes[i] == x;
      MembersAreFewer(nodes[..i] + nodes[i + 1..], some);
    }
  }

  lemma {:induction false} MembersAreFewer<T>(nodes: seq<T>, some: seq<T>)
    requires Distinct(some) && forall x :: x in some ==> x in nodes
    ensures |some| <= |nodes|
  {
    if some != [] {
      var n := |some| - 1;
      assert some[n] in nodes;
      var i :| 0 <= i < |nodes| && nodes[i] == some[n];
      var rest := nodes[..i] + nodes[i + 1..];
      forall x | x in some[..n] ensures x in rest {
        assert x in some && x in nodes;
        var k :| 0 <= k < |nodes| && nodes[k] == x;
        assert k != i;
        assert rest[if k < i then k else k - 1] == x;
      }
      MembersAreFewer(rest, some[..n]);
    }
  }

  lemma {:induction false} LastTouchesSuffix<T>(moves: seq<T>, last: seq<T>)
    requires Distinct(last) && forall x :: x in moves ==> x in last
    ensures LastTouches(moves + last) == last
  {
    if moves != [] {
      assert (moves + last)[1..] == moves[1..] + last && moves[0] in last;
      LastTouchesSuffix(moves[1..], last);
    } else {
      assert moves + last == last;
      DistinctTouches(last);
    }
  }

  lemma {:induction false} DistinctTouches<T>(last: seq<T>)
    requires Distinct(last)
    ensures LastTouches(last) == last
  {
    if last != [] {
      assert Distinct(last[1..]);
      DistinctTouches(last[1..]);
    }
  }

  lemma {:induction false} AllTouched<T>(kids: seq<T>, moves: seq<T>)
    requires forall x :: x in kids ==> x in moves
    ensures Untouched(kids, moves) == []
  {
    if kids != [] { AllTouched(kids[1..], moves); }
  }

  /** A stride coprime to the node count, long enough: exactly the last touched nodes, in order. */
  lemma CoprimeStride<T>(nodes: seq<T>, stride: nat, updates: nat)
    requires Distinct(nodes) && nodes != [] && Gcd(stride, |nodes|) == 1 && updates >= |nodes|
    ensures AfterMoves(nodes, Strided(nodes, stride, updates))
         == Strided(nodes, stride, updates)[updates - |nodes|..]
  {
    var moves := Strided(nodes, stride, updates);
    var early, last := moves[..updates - |nodes|], moves[updates - |nodes|..];
    assert moves == early + last;
    LastUpdatesAreDistinct(nodes, stride, updates);
    FullCover(nodes, last);
    MoveToEndOrder(nodes, moves);
    AllTouched(nodes, moves);
    LastTouchesSuffix(early, last);
  }

  const DOM_NODES: nat := 1000
  const DOM_UPDATES: nat := 8000
  const STRIDE: nat := 17

  /** For each update `k`, touch node `k * stride mod |nodes|` and move it to the end. */
  method MoveByStride<T(==)>(root: Container<T>, nodes: seq<T>, stride: nat, updates: nat)
    requires nodes != [] && root.children == nodes && Distinct(nodes)
    modifies root
    ensures root.children == AfterMoves(nodes, Strided(nodes, stride, updates))
    ensures root.children == Untouched(nodes, Strided(nodes, stride, updates))
                             + LastTouches(Strided(nodes, stride, updates))
  {
    ghost var moves := Strided(nodes, stride, updates);
    for k := 0 to updates
      invariant root.children == AfterMoves(nodes, moves[..k])
    {
      var index := (k * stride) % |nodes|;
      root.Append(nodes[index]);
      assert moves[..k + 1][..k] == moves[..k];
    }
    assert moves[..updates] == moves;
    MoveToEndOrder(nodes, moves);
  }

  lemma StrideIsCoprime()
    ensures Gcd(STRIDE, DOM_NODES) == 1
  {
    assert 1000 % 17 == 14 && 17 % 14 == 3 && 14 % 3 == 2 && 3 % 2 == 1;
    assert Gcd(2, 1) == Gcd(3, 2) == Gcd(14, 3) == Gcd(17, 14);
  }

  /** The page's own numbers: the list ends as the nodes of the last DOM_NODES updates, in order. */
  method UpdateLoop<T(==)>(root: Container<T>, nodes: seq<T>)
    requires |nodes| == DOM_NODES && root.children == nodes && Distinct(nodes)
    modifies root
    ensures root.children == Strided(nodes, STRIDE, DOM_UPDATES)[DOM_UPDATES - DOM_NODES..]
  {
    hide Gcd, AfterMoves, Untouched, LastTouches, Distinct, Strided;
    MoveByStride(root, nodes, STRIDE, DOM_UPDATES);
    StrideIsCoprime();
    CoprimeStride(nodes, STRIDE, DOM_UPDATES);
  }
}
