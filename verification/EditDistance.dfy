/** The typo resolver of the shell: two-row edit distance and the closest-phrase search.

    The reference notions are independent of the dynamic program: an alignment
    (`Edit` columns with a cost) and a chain of single edits at arbitrary positions. */
module EditDistance {
  import opened Common

  // ---------------------------------------------------------------- reference notions

  /** One column of an alignment of two strings. */
  datatype Edit = Keep(c: char) | Replace(from: char, to: char) | Insert(c: char) | Delete(c: char)
  {
    function Before(): string {
      match this
      case Keep(c) => [c]
      case Replace(from, _) => [from]
      case Insert(_) => []
      case Delete(c) => [c]
    }

    function After(): string {
      match this
      case Keep(c) => [c]
      case Replace(_, to) => [to]
      case Insert(c) => [c]
      case Delete(_) => []
    }
  }

  /** An alignment: its columns, the last one outermost. */
  datatype Alignment = Empty | Column(init: Alignment, last: Edit)
  {
    function Source(): string {
      match this
      case Empty => []
      case Column(init, last) => init.Source() + last.Before()
    }

    function Target(): string {
      match this
      case Empty => []
      case Column(init, last) => init.Target() + last.After()
    }

    function Cost(): nat {
      match this
      case Empty => 0
      case Column(init, last) => init.Cost() + if last.Keep? then 0 else 1
    }
  }

  /** One edit of a whole string, at any position. */
  datatype Step = InsertAt(i: nat, c: char) | DeleteAt(i: nat) | ReplaceAt(i: nat, c: char)

  function Apply(step: Step, s: string): Option<string> {
    match step
    case InsertAt(i, c) => if i <= |s| then Some(s[..i] + [c] + s[i..]) else None
    case DeleteAt(i) => if i < |s| then Some(s[..i] + s[i + 1..]) else None
    case ReplaceAt(i, c) => if i < |s| then Some(s[..i] + [c] + s[i + 1..]) else None
  }

  /** A chain of edits, the last one outermost. */
  datatype Chain = Start | Then(init: Chain, last: Step)
  {
    function Length(): nat {
      match this
      case Start => 0
      case Then(init, _) => init.Length() + 1
    }

    function Run(s: string): Option<string> {
      match this
      case Start => Some(s)
      case Then(init, last) =>
        var mid := init.Run(s);
        if mid.None? then None else Apply(last, mid.value)
    }
  }

  // ---------------------------------------------------------------- the recurrence

  function Min(a: nat, b: nat): nat {
    if a <= b then a else b
  }

  function Mismatch(x: char, y: char): nat {
    if x != y then 1 else 0
  }

  function Lev(a: string, b: string): nat
    decreases |a| + |b|
  {
    if a == [] then |b|
    else if b == [] then |a|
    else
      var n, m := |a| - 1, |b| - 1;
      Min(Min(Lev(a[..n], b) + 1, Lev(a, b[..m]) + 1), Lev(a[..n], b[..m]) + Mismatch(a[n], b[m]))
  }

  lemma LevExtend(a: string, b: string, x: char, y: char)
    ensures Lev(a + [x], b + [y])
         == Min(Min(Lev(a, b + [y]) + 1, Lev(a + [x], b) + 1), Lev(a, b) + Mismatch(x, y))
  {
    assert (a + [x])[..|a|] == a && (b + [y])[..|b|] == b;
  }

  lemma LevEmpty(s: string)
    ensures Lev([], s) == |s| && Lev(s, []) == |s|
  {}

  lemma LevGrowLeft(a: string, b: string, x: char)
    ensures Lev(a + [x], b) <= Lev(a, b) + 1
  {
    assert (a + [x])[..|a|] == a;
  }

  lemma LevGrowRight(a: string, b: string, y: char)
    ensures Lev(a, b + [y]) <= Lev(a, b) + 1
  {
    assert (b + [y])[..|b|] == b;
  }

  /** No alignment is cheaper than `Lev`. */
  lemma {:induction false} AlignmentCostsAtLeastLev(s: Alignment)
    ensures Lev(s.Source(), s.Target()) <= s.Cost()
  {
    hide Lev;
    LevEmpty([]);
    if s.Column? {
      AlignmentCostsAtLeastLev(s.init);
      var a, b := s.init.Source(), s.init.Target();
      assert a + [] == a && b + [] == b;
      match s.last {
        case Keep(c) => LevExtend(a, b, c, c);
        case Replace(from, to) => LevExtend(a, b, from, to);
        case Insert(c) => LevGrowRight(a, b, c);
        case Delete(c) => LevGrowLeft(a, b, c);
      }
    }
  }

  lemma SplitLast(s: string)
    requires s != []
    ensures s == s[..|s| - 1] + [s[|s| - 1]]
  {}

  /** Some alignment costs exactly `Lev`. */
  lemma {:induction false} LevIsAligned(a: string, b: string) returns (s: Alignment)
    ensures s.Source() == a && s.Target() == b && s.Cost() == Lev(a, b)
    decreases |a| + |b|
  {
    var n, m := |a| - 1, |b| - 1;
    if a == [] && b == [] {
      s := Empty;
    } else if a == [] || (b != [] && Lev(a, b) == Lev(a, b[..m]) + 1) {
      SplitLast(b);
      s := LevIsAligned(a, b[..m]);
      s := Column(s, Insert(b[m]));
    } else if b == [] || Lev(a, b) == Lev(a[..n], b) + 1 {
      SplitLast(a);
      s := LevIsAligned(a[..n], b);
      s := Column(s, Delete(a[n]));
    } else {
      SplitLast(a);
      SplitLast(b);
      s := LevIsAligned(a[..n], b[..m]);
      s := Column(s, if a[n] == b[m] then Keep(a[n]) else Replace(a[n], b[m]));
    }
  }

  // ---------------------------------------------------------------- metric laws

  /** Two columns around a shared middle character, as one column; None when it came and went. */
  function Fuse(x: Edit, y: Edit): Option<Edit>
    requires !x.Delete? && !y.Insert?
  {
    match (x, y)
    case (Keep(_), _) => Some(y)
    case (_, Keep(_)) => Some(x)
    case (Replace(from, _), Replace(_, to)) => Some(Replace(from, to))
    case (Replace(from, _), Delete(_)) => Some(Delete(from))
    case (Insert(_), Replace(_, to)) => Some(Insert(to))
    case (Insert(_), Delete(_)) => None
  }

  /** The alignment obtained by running `s` and then `t` costs no more than both together. */
  function Compose(s: Alignment, t: Alignment): (r: Alignment)
    requires s.Target() == t.Source()
    ensures r.Source() == s.Source() && r.Target() == t.Target()
    ensures r.Cost() <= s.Cost() + t.Cost()
    decreases s, t
  {
    if s.Column? && s.last.Delete? then
      assert s.Target() == s.init.Target();
      Column(Compose(s.init, t), s.last)
    else if t.Column? && t.last.Insert? then
      assert t.Source() == t.init.Source();
      Column(Compose(s, t.init), t.last)
    else if s.Empty? || t.Empty? then
      Empty
    else
      assert s.Target()[..|s.Target()| - 1] == s.init.Target();
      assert t.Source()[..|t.Source()| - 1] == t.init.Source();
      var r, fused := Compose(s.init, t.init), Fuse(s.last, t.last);
      if fused.None? then r else Column(r, fused.value)
  }

  lemma LevTriangle(a: string, b: string, c: string)
    ensures Lev(a, c) <= Lev(a, b) + Lev(b, c)
  {
    var s := LevIsAligned(a, b);
    var t := LevIsAligned(b, c);
    AlignmentCostsAtLeastLev(Compose(s, t));
  }

  lemma {:induction false} LevSymmetric(a: string, b: string)
    ensures Lev(a, b) == Lev(b, a)
    decreases |a| + |b|
  {
    if a != [] && b != [] {
      var a', b' := a[..|a| - 1], b[..|b| - 1];
      LevSymmetric(a', b);
      LevSymmetric(a, b');
      LevSymmetric(a', b');
    }
  }

  lemma {:induction false} LevZero(a: string, b: string)
    ensures Lev(a, b) == 0 <==> a == b
    decreases |a| + |b|
  {
    if a != [] && b != [] {
      LevZero(a[..|a| - 1], b[..|b| - 1]);
      SplitLast(a);
      SplitLast(b);
    }
  }

  // ---------------------------------------------------------------- chains of single edits

  lemma {:induction false} LevCommonSuffix(a: string, b: string, suffix: string)
    ensures Lev(a + suffix, b + suffix) <= Lev(a, b)
  {
    hide Lev;
    if suffix == [] {
      assert a + suffix == a && b + suffix == b;
    } else {
      var n := |suffix| - 1;
      var z := suffix[n];
      LevCommonSuffix(a, b, suffix[..n]);
      LevExtend(a + suffix[..n], b + suffix[..n], z, z);
      assert a + suffix[..n] + [z] == a + suffix;
      assert b + suffix[..n] + [z] == b + suffix;
    }
  }

  /** Replacing the middle of a string by at most one character, where at most one stood. */
  lemma OneSpot(p: string, before: string, after: string, suffix: string)
    requires |before| <= 1 && |after| <= 1
    ensures Lev(p + before + suffix, p + after + suffix) <= 1
  {
    hide Lev;
    LevZero(p, p);
    LevCommonSuffix(p + before, p + after, suffix);
    if |before| == 1 && |after| == 1 {
      assert before == [before[0]] && after == [after[0]];
      LevExtend(p, p, before[0], after[0]);
    } else if |before| == 1 {
      assert before == [before[0]] && p + after == p;
      LevGrowLeft(p, p, before[0]);
    } else if |after| == 1 {
      assert after == [after[0]] && p + before == p;
      LevGrowRight(p, p, after[0]);
    } else {
      assert p + before == p && p + after == p;
    }
  }

  lemma OneStepIsOneEdit(step: Step, s: string)
    requires Apply(step, s).Some?
    ensures Lev(s, Apply(step, s).value) <= 1
  {
    var i := step.i;
    match step {
      case InsertAt(_, c) =>
        OneSpot(s[..i], [], [c], s[i..]);
        assert s[..i] + [] + s[i..] == s;
      case DeleteAt(_) =>
        OneSpot(s[..i], [s[i]], [], s[i + 1..]);
        assert s[..i] + [s[i]] + s[i + 1..] == s && s[..i] + [] == s[..i];
      case ReplaceAt(_, c) =>
        OneSpot(s[..i], [s[i]], [c], s[i + 1..]);
        assert s[..i] + [s[i]] + s[i + 1..] == s;
    }
  }

  lemma {:induction false} ChainCostsAtLeastLev(chain: Chain, s: string)
    requires chain.Run(s).Some?
    ensures Lev(s, chain.Run(s).value) <= chain.Length()
  {
    if chain.Start? {
      LevZero(s, s);
    } else {
      ChainCostsAtLeastLev(chain.init, s);
      var t := chain.init.Run(s).value;
      OneStepIsOneEdit(chain.last, t);
      LevTriangle(s, t, chain.Run(s).value);
    }
  }

  lemma StepUnderSuffix(step: Step, t: string, suffix: string)
    requires Apply(step, t).Some?
    ensures Apply(step, t + suffix) == Some(Apply(step, t).value + suffix)
  {
    var i := step.i;
    assert (t + suffix)[..i] == t[..i];
    if step.InsertAt? {
      assert t[..i] + [step.c] + t[i..] + suffix == (t + suffix)[..i] + [step.c] + (t + suffix)[i..];
    } else if step.DeleteAt? {
      assert t[..i] + t[i + 1..] + suffix == (t + suffix)[..i] + (t + suffix)[i + 1..];
    } else {
      assert t[..i] + [step.c] + t[i + 1..] + suffix == (t + suffix)[..i] + [step.c] + (t + suffix)[i + 1..];
    }
  }

  lemma {:induction false} ChainUnderSuffix(chain: Chain, s: string, suffix: string)
    requires chain.Run(s).Some?
    ensures chain.Run(s + suffix) == Some(chain.Run(s).value + suffix)
  {
    if chain.Then? {
      ChainUnderSuffix(chain.init, s, suffix);
      StepUnderSuffix(chain.last, chain.init.Run(s).value, suffix);
    }
  }

  lemma EditAtEnd(t: string, c: char, d: char)
    ensures Apply(InsertAt(|t|, c), t) == Some(t + [c])
    ensures Apply(DeleteAt(|t|), t + [c]) == Some(t)
    ensures Apply(ReplaceAt(|t|, d), t + [c]) == Some(t + [d])
  {
    var n, u := |t|, t + [c];
    assert t[..n] + [c] + t[n..] == t + [c];
    assert u[..n] + u[n + 1..] == t && u[..n] + [d] + u[n + 1..] == t + [d];
  }

  lemma {:induction false} LevIsAChain(a: string, b: string) returns (chain: Chain)
    ensures chain.Length() == Lev(a, b) && chain.Run(a) == Some(b)
    decreases |a| + |b|
  {
    hide Apply;
    var n, m := |a| - 1, |b| - 1;
    if a == [] && b == [] {
      chain := Start;
    } else if a == [] || (b != [] && Lev(a, b) == Lev(a, b[..m]) + 1) {
      chain := LevIsAChain(a, b[..m]);
      SplitLast(b);
      EditAtEnd(b[..m], b[m], b[m]);
      chain := Then(chain, InsertAt(m, b[m]));
    } else if b == [] || Lev(a, b) == Lev(a[..n], b) + 1 {
      chain := LevIsAChain(a[..n], b);
      SplitLast(a);
      ChainUnderSuffix(chain, a[..n], [a[n]]);
      EditAtEnd(b, a[n], a[n]);
      chain := Then(chain, DeleteAt(|b|));
    } else {
      chain := LevIsAChain(a[..n], b[..m]);
      SplitLast(a);
      SplitLast(b);
      ChainUnderSuffix(chain, a[..n], [a[n]]);
      if a[n] != b[m] {
        EditAtEnd(b[..m], a[n], b[m]);
        chain := Then(chain, ReplaceAt(m, b[m]));
      }
    }
  }

  /** `Lev` is exactly the least number of insertions, deletions and substitutions. */
  lemma LevIsLeastNumberOfEdits(a: string, b: string)
    ensures exists chain: Chain :: chain.Run(a) == Some(b) && chain.Length() == Lev(a, b)
    ensures forall chain: Chain :: chain.Run(a) == Some(b) ==> Lev(a, b) <= chain.Length()
  {
    var chain := LevIsAChain(a, b);
    forall chain: Chain | chain.Run(a) == Some(b) ensures Lev(a, b) <= chain.Length() {
      ChainCostsAtLeastLev(chain, a);
    }
  }

  // ---------------------------------------------------------------- the two-row program

  const USIZE_MAX: nat := 0xFFFF_FFFF_FFFF_FFFF
  const MAX_CHARS: nat := 64

  /** What the caller sees: the least number of edits, or the largest word when a side is too long. */
  function Distance(left: string, right: string): nat {
    if |left| > MAX_CHARS || |right| > MAX_CHARS then USIZE_MAX else Lev(left, right)
  }

  lemma LevOnPrefixes(a: string, b: string, i: nat, j: nat)
    requires i < |a| && j < |b|
    ensures Lev(a[..i + 1], b[..j + 1])
         == Min(Min(Lev(a[..i], b[..j + 1]) + 1, Lev(a[..i + 1], b[..j]) + 1), Lev(a[..i], b[..j]) + Mismatch(a[i], b[j]))
  {
    hide Lev;
    assert a[..i + 1] == a[..i] + [a[i]] && b[..j + 1] == b[..j] + [b[j]];
    LevExtend(a[..i], b[..j], a[i], b[j]);
  }

  method ComputeDistance(left: string, right: string) returns (d: nat)
    ensures d == Distance(left, right)
  {
    hide Lev;
    if |left| > MAX_CHARS || |right| > MAX_CHARS {
      return USIZE_MAX;
    }
    var prev := new nat[|right| + 1](j => j);
    var next := new nat[|right| + 1](_ => 0);
    forall j | 0 <= j <= |right| ensures Lev(left[..0], right[..j]) == j { LevEmpty(right[..j]); }
    for i := 0 to |left|
      invariant prev != next && fresh(prev) && fresh(next)
      invariant prev.Length == next.Length == |right| + 1
      invariant forall j :: 0 <= j <= |right| ==> prev[j] == Lev(left[..i], right[..j])
    {
      next[0] := i + 1;
      LevEmpty(left[..i + 1]);
      for j := 0 to |right|
        invariant forall k :: 0 <= k <= j ==> next[k] == Lev(left[..i + 1], right[..k])
        invariant forall k :: 0 <= k <= |right| ==> prev[k] == Lev(left[..i], right[..k])
      {
        LevOnPrefixes(left, right, i, j);
        var cost := if left[i] != right[j] then 1 else 0;
        next[j + 1] := Min(Min(prev[j + 1] + 1, next[j] + 1), prev[j] + cost);
      }
      prev, next := next, prev;
    }
    assert left[..|left|] == left && right[..|right|] == right;
    d := prev[|right|];
  }

  // ---------------------------------------------------------------- closest phrase

  datatype ShellApp = Files | Terminal | Settings
  datatype ShellCommand = OpenApp(app: ShellApp) | ToggleNight | ListApps

  const CANON: seq<(string, ShellCommand)> := [
    ("open files", OpenApp(Files)),
    ("open terminal", OpenApp(Terminal)),
    ("open settings", OpenApp(Settings)),
    ("night mode", ToggleNight),
    ("dark mode", ToggleNight),
    ("list apps", ListApps),
    ("settings", OpenApp(Settings)),
    ("terminal", OpenApp(Terminal)),
    ("files", OpenApp(Files))
  ]

  /** A phrase is close enough: not equal, and within two typos (one for a short phrase). */
  predicate Close(normalized: string, phrase: string) {
    |phrase| >= 5 && 0 < Distance(normalized, phrase) <= if |phrase| >= 8 then 2 else 1
  }

  /** Entry `i` of `CANON[..n]` is close, no close entry is closer, and no earlier one is as close. */
  predicate FirstClosest(normalized: string, n: nat, i: nat)
    requires n <= |CANON|
  {
    i < n && Close(normalized, CANON[i].0) &&
    forall j :: 0 <= j < n && Close(normalized, CANON[j].0) ==>
      var dj, di := Distance(normalized, CANON[j].0), Distance(normalized, CANON[i].0);
      di <= dj && (j < i ==> di < dj)
  }

  ghost predicate WithinEdits(a: string, b: string, edits: nat) {
    exists chain: Chain :: chain.Run(a) == Some(b) && chain.Length() <= edits
  }

  /** Close means: other than the phrase, and turned into it by one edit, or two for a phrase of eight
      characters or more. */
  lemma CloseIs(normalized: string, phrase: string)
    requires |normalized| <= 64 && |phrase| <= 64
    ensures Close(normalized, phrase) <==>
      |phrase| >= 5 && normalized != phrase && WithinEdits(normalized, phrase, if |phrase| >= 8 then 2 else 1)
  {
    hide Lev;
    LevZero(normalized, phrase);
    LevIsLeastNumberOfEdits(normalized, phrase);
  }

  /** A longer text is close to nothing. */
  lemma LongIsFar(normalized: string, phrase: string)
    requires |normalized| > 64
    ensures !Close(normalized, phrase)
  {}

  method FuzzyMatch(normalized: string) returns (r: Option<ShellCommand>)
    ensures r.None? <==> forall i :: 0 <= i < |CANON| ==> !Close(normalized, CANON[i].0)
    ensures r.Some? ==> exists i: nat :: FirstClosest(normalized, |CANON|, i) && r.value == CANON[i].1
  {
    var best: Option<(nat, ShellCommand)> := None;
    ghost var at: nat := 0;
    for n := 0 to |CANON|
      invariant best.None? <==> forall i :: 0 <= i < n ==> !Close(normalized, CANON[i].0)
      invariant best.Some? ==> FirstClosest(normalized, n, at)
                               && best.value == (Distance(normalized, CANON[at].0), CANON[at].1)
    {
      var phrase, command := CANON[n].0, CANON[n].1;
      var distance := ComputeDistance(normalized, phrase);
      var limit := if |phrase| >= 8 then 2 else 1;
      if |phrase| >= 5 && distance > 0 && distance <= limit {
        if best.Some? && best.value.0 <= distance {
        } else {
          best := Some((distance, command));
          at := n;
        }
      }
    }
    r := if best.Some? then Some(best.value.1) else None;
  }
}
