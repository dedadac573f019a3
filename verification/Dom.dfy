/** The child list of one DOM node, as `appendChild`, `insertBefore` and `removeChild` change it
    (DOM Standard, section 4.2.3): inserting a node that already has a place moves it. */
module Dom {
  import opened Common

  function Remove<T(==)>(kids: seq<T>, x: T): (r: seq<T>)
    ensures forall y :: y in r ==> y in kids
    ensures x !in kids ==> r == kids
  {
    if kids == [] then []
    else if kids[0] == x then kids[1..]
    else [kids[0]] + Remove(kids[1..], x)
  }

  function AppendChild<T(==)>(kids: seq<T>, x: T): seq<T> {
    Remove(kids, x) + [x]
  }

  function IndexOf<T(==)>(kids: seq<T>, x: T): (i: nat)
    requires x in kids
    ensures i < |kids| && kids[i] == x && x !in kids[..i]
  {
    if kids[0] == x then 0 else IndexOf(kids[1..], x) + 1
  }

  function NextSibling<T(==)>(kids: seq<T>, x: T): Option<T>
    requires x in kids
  {
    var i := IndexOf(kids, x);
    if i + 1 < |kids| then Some(kids[i + 1]) else None
  }

  /** `before` None inserts at the end. */
  function InsertBefore<T(==)>(kids: seq<T>, x: T, before: Option<T>): seq<T>
    requires before.Some? ==> before.value in kids && before.value != x
  {
    if before.None? then AppendChild(kids, x) else
      var rest := Remove(kids, x);
      RemoveKeeps(kids, x, before.value);
      var i := IndexOf(rest, before.value);
      rest[..i] + [x] + rest[i..]
  }

  lemma RemoveKeeps<T>(kids: seq<T>, x: T, y: T)
    requires y in kids && x != y
    ensures y in Remove(kids, x)
  {}

  lemma {:induction false} RemoveAt<T>(kids: seq<T>, i: nat)
    requires i < |kids| && Distinct(kids)
    ensures Remove(kids, kids[i]) == kids[..i] + kids[i + 1..]
  {
    if i > 0 {
      var tail := kids[1..];
      assert kids[0] != kids[i];
      assert Distinct(tail);
      RemoveAt(tail, i - 1);
      assert tail[i - 1] == kids[i];
      assert [kids[0]] + (tail[..i - 1] + tail[i..]) == kids[..i] + kids[i + 1..];
    }
  }
}
