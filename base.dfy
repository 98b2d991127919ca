/** Small building blocks shared by both generations of the engine. */
module Base {

  datatype Option<T> = None | Some(value: T)

  function MinInt(a: int, b: int): int {
    if a <= b then a else b
  }

  function MaxInt(a: int, b: int): int {
    if a >= b then a else b
  }

  /** The position of the earliest largest element: what a stable descending
      sort puts first, and what a left-to-right scan that only moves on a
      strictly larger value ends on. */
  function MaxIndex(s: seq<int>): (k: nat)
    requires |s| > 0
    ensures k < |s|
    ensures forall j :: 0 <= j < |s| ==> s[j] <= s[k]
    ensures forall j :: 0 <= j < k ==> s[j] < s[k]
    decreases |s|
  {
    if |s| == 1 then 0
    else
      var k := MaxIndex(s[..|s| - 1]);
      if s[|s| - 1] > s[k] then |s| - 1 else k
  }

  /** The position of the earliest largest element once position `k` is set
      aside: what a stable descending sort puts second when `k` is first. */
  function SecondIndex(s: seq<int>, k: nat): (j: nat)
    requires k < |s| && |s| >= 2
    ensures j < |s| && j != k
    ensures forall i :: 0 <= i < |s| && i != k ==> s[i] <= s[j]
    ensures forall i :: 0 <= i < j && i != k ==> s[i] < s[j]
  {
    var rest := s[..k] + s[k + 1..];
    var k2 := MaxIndex(rest);
    SkipPosition(s, k, rest, k2);
    if k2 < k then k2 else k2 + 1
  }

  /** Position `m` of `s` with position `k` removed is position `m` or
      `m + 1` of `s`; the earliest largest one stays the earliest largest. */
  lemma SkipPosition(s: seq<int>, k: nat, rest: seq<int>, m: nat)
    requires k < |s| && |s| >= 2 && rest == s[..k] + s[k + 1..] && m < |rest|
    requires forall i :: 0 <= i < |rest| ==> rest[i] <= rest[m]
    requires forall i :: 0 <= i < m ==> rest[i] < rest[m]
    ensures var j := if m < k then m else m + 1;
      && (forall i :: 0 <= i < |s| && i != k ==> s[i] <= s[j])
      && (forall i :: 0 <= i < j && i != k ==> s[i] < s[j])
  {
    var j := if m < k then m else m + 1;
    assert rest[m] == s[j];
    forall i | 0 <= i < |s| && i != k
      ensures s[i] <= s[j] && (i < j ==> s[i] < s[j])
    {
      var p := if i < k then i else i - 1;
      assert rest[p] == s[i];
      assert i < j ==> p < m;
    }
  }

  /** The two conditions of MaxIndex pin the position down: at most one
      position is both maximal and ahead of every other maximum. */
  lemma EarliestMaxUnique(s: seq<int>, k: nat)
    requires k < |s|
    requires forall j :: 0 <= j < |s| ==> s[j] <= s[k]
    requires forall j :: 0 <= j < k ==> s[j] < s[k]
    ensures MaxIndex(s) == k
  {
  }

  /** Number of positive entries. */
  function CountPositive(s: seq<int>): (n: nat)
    ensures n <= |s|
    decreases |s|
  {
    if s == [] then 0 else CountPositive(s[..|s| - 1]) + (if s[|s| - 1] > 0 then 1 else 0)
  }

  lemma {:induction false} CountPositiveZero(s: seq<int>)
    ensures CountPositive(s) == 0 <==> forall j :: 0 <= j < |s| ==> s[j] <= 0
    decreases |s|
  {
    if s != [] {
      CountPositiveZero(s[..|s| - 1]);
      assert forall j :: 0 <= j < |s| - 1 ==> s[..|s| - 1][j] == s[j];
    }
  }

  lemma {:induction false} CountPositiveAppend(a: seq<int>, b: seq<int>)
    ensures CountPositive(a + b) == CountPositive(a) + CountPositive(b)
    decreases |b|
  {
    if b == [] {
      assert a + b == a;
    } else {
      assert (a + b)[..|a + b| - 1] == a + b[..|b| - 1];
      CountPositiveAppend(a, b[..|b| - 1]);
    }
  }

  /** Removing one positive entry lowers the count by exactly one. */
  lemma CountPositiveRemove(s: seq<int>, k: nat)
    requires k < |s| && s[k] > 0
    ensures CountPositive(s) == 1 + CountPositive(s[..k] + s[k + 1..])
  {
    assert s == s[..k] + [s[k]] + s[k + 1..];
    CountPositiveAppend(s[..k] + [s[k]], s[k + 1..]);
    CountPositiveAppend(s[..k], [s[k]]);
    CountPositiveAppend(s[..k], s[k + 1..]);
    assert CountPositive([s[k]]) == 1 by {
      assert [s[k]][..0] == [];
    }
  }

  /** With the largest element set aside, the runner-up is positive exactly
      when at least two elements are. */
  lemma SecondPositive(s: seq<int>)
    requires |s| >= 2 && s[MaxIndex(s)] > 0
    ensures s[SecondIndex(s, MaxIndex(s))] > 0 <==> CountPositive(s) >= 2
  {
    var k := MaxIndex(s);
    var j := SecondIndex(s, k);
    var rest := s[..k] + s[k + 1..];
    CountPositiveRemove(s, k);
    if s[j] > 0 {
      RestHasPositive(s, k, j);
    } else {
      RestAllNonPositive(s, k, j);
    }
  }

  lemma RestHasPositive(s: seq<int>, k: nat, j: nat)
    requires k < |s| && j < |s| && j != k && s[j] > 0
    ensures CountPositive(s[..k] + s[k + 1..]) > 0
  {
    var rest := s[..k] + s[k + 1..];
    var r := if j < k then j else j - 1;
    assert rest[r] == s[j];
    CountPositiveZero(rest);
  }

  lemma RestAllNonPositive(s: seq<int>, k: nat, j: nat)
    requires k < |s| && j < |s| && j != k && s[j] <= 0
    requires forall i :: 0 <= i < |s| && i != k ==> s[i] <= s[j]
    ensures CountPositive(s[..k] + s[k + 1..]) == 0
  {
    var rest := s[..k] + s[k + 1..];
    forall r | 0 <= r < |rest|
      ensures rest[r] <= 0
    {
      var i := if r < k then r else r + 1;
      assert rest[r] == s[i];
    }
    CountPositiveZero(rest);
  }
}
