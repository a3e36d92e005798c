/** Ordering the merged log entries: `GetLogs` sorts them in place with
    `sort.SliceStable` on "timestamp less than" (pkg/operations/operations_aws.go).
    The specification of a stable sort is stated on sequences; the in-place sort is
    an insertion sort on an array, proved against it. */
module LogSort {
  import opened LogFetch

  /** Non-decreasing by timestamp. */
  predicate SortedByTimestamp(s: seq<LogEntry>) {
    forall k, l :: 0 <= k < l < |s| ==> s[k].timestamp <= s[l].timestamp
  }

  /** The entries of `s` with timestamp `t`, in their order in `s`. */
  function WithTimestamp(s: seq<LogEntry>, t: int): seq<LogEntry>
    decreases |s|
  {
    if s == [] then []
    else (if s[0].timestamp == t then [s[0]] else []) + WithTimestamp(s[1..], t)
  }

  /** `out` is a stable rearrangement of `in`: for every timestamp, the entries
      carrying it are the same and in the same relative order. */
  ghost predicate StablePermutation(out: seq<LogEntry>, original: seq<LogEntry>) {
    forall t :: WithTimestamp(out, t) == WithTimestamp(original, t)
  }

  lemma {:induction false} WithTimestampConcat(a: seq<LogEntry>, b: seq<LogEntry>, t: int)
    ensures WithTimestamp(a + b, t) == WithTimestamp(a, t) + WithTimestamp(b, t)
    decreases |a|
  {
    if a == [] {
      assert a + b == b;
    } else {
      assert (a + b)[1..] == a[1..] + b;
      WithTimestampConcat(a[1..], b, t);
    }
  }

  /** Exchanging two neighbours with different timestamps keeps the arrangement stable. */
  lemma SwapNeighboursStable(s: seq<LogEntry>, j: nat)
    requires 0 < j < |s|
    requires s[j - 1].timestamp != s[j].timestamp
    ensures StablePermutation(s[j - 1 := s[j]][j := s[j - 1]], s)
  {
    var x, y := s[j - 1], s[j];
    var swapped := s[j - 1 := y][j := x];
    var front, back := s[..j - 1], s[j + 1..];
    assert s == front + [x, y] + back;
    assert swapped == front + [y, x] + back;
    forall t ensures WithTimestamp(swapped, t) == WithTimestamp(s, t) {
      WithTimestampConcat(front + [x, y], back, t);
      WithTimestampConcat(front, [x, y], t);
      WithTimestampConcat(front + [y, x], back, t);
      WithTimestampConcat(front, [y, x], t);
      assert [x, y][1..] == [y] && [y][1..] == [];
      assert [y, x][1..] == [x] && [x][1..] == [];
    }
  }

  /** An entry occurs as often in `s` as among the entries of its own timestamp. */
  lemma {:induction false} CountWithTimestamp(s: seq<LogEntry>, e: LogEntry)
    ensures multiset(s)[e] == multiset(WithTimestamp(s, e.timestamp))[e]
    decreases |s|
  {
    if s != [] {
      CountWithTimestamp(s[1..], e);
      assert s == [s[0]] + s[1..];
    }
  }

  /** A stable rearrangement is a permutation. */
  lemma StablePermutationIsPermutation(out: seq<LogEntry>, original: seq<LogEntry>)
    requires StablePermutation(out, original)
    ensures multiset(out) == multiset(original)
  {
    forall e ensures multiset(out)[e] == multiset(original)[e] {
      CountWithTimestamp(out, e);
      CountWithTimestamp(original, e);
    }
  }

  lemma {:induction false} WithTimestampMember(s: seq<LogEntry>, t: int, e: LogEntry)
    requires e in WithTimestamp(s, t)
    ensures e in s && e.timestamp == t
    decreases |s|
  {
    if s[0].timestamp == t && e == s[0] {
    } else {
      WithTimestampMember(s[1..], t, e);
    }
  }

  /** A sorted sequence starts with its smallest timestamp. */
  lemma SortedHead(a: seq<LogEntry>, t: int)
    requires SortedByTimestamp(a) && a != []
    requires WithTimestamp(a, t) != []
    ensures a[0].timestamp <= t
  {
    var e := WithTimestamp(a, t)[0];
    WithTimestampMember(a, t, e);
  }

  /** Two sorted stable rearrangements of each other start with the same entry. */
  lemma SameHead(a: seq<LogEntry>, b: seq<LogEntry>)
    requires SortedByTimestamp(a) && SortedByTimestamp(b)
    requires StablePermutation(a, b)
    requires a != []
    ensures b != [] && a[0] == b[0]
  {
    var ta := a[0].timestamp;
    assert WithTimestamp(a, ta) == [a[0]] + WithTimestamp(a[1..], ta);
    assert WithTimestamp(b, ta) != [];
    var tb := b[0].timestamp;
    assert WithTimestamp(b, tb) == [b[0]] + WithTimestamp(b[1..], tb);
    SortedHead(b, ta);
    SortedHead(a, tb);
    assert ta == tb;
    assert WithTimestamp(a, ta) == WithTimestamp(b, ta);
    assert WithTimestamp(a, ta)[0] == a[0] && WithTimestamp(b, tb)[0] == b[0];
  }

  /** Sorting stably has exactly one answer: two sorted stable rearrangements of the
      same entries are equal. So the order the entries were merged in decides the
      result only among equal timestamps. */
  lemma {:induction false} SortedStableUnique(a: seq<LogEntry>, b: seq<LogEntry>)
    requires SortedByTimestamp(a) && SortedByTimestamp(b)
    requires StablePermutation(a, b)
    ensures a == b
    decreases |a|
  {
    if a == [] {
      if b != [] {
        SameHead(b, a);
      }
    } else {
      SameHead(a, b);
      forall t ensures WithTimestamp(a[1..], t) == WithTimestamp(b[1..], t) {
        var head := if a[0].timestamp == t then [a[0]] else [];
        assert WithTimestamp(a, t) == head + WithTimestamp(a[1..], t);
        assert WithTimestamp(b, t) == head + WithTimestamp(b[1..], t);
        assert WithTimestamp(a[1..], t) == WithTimestamp(a, t)[|head|..];
        assert WithTimestamp(b[1..], t) == WithTimestamp(b, t)[|head|..];
      }
      SortedStableUnique(a[1..], b[1..]);
      assert a == [a[0]] + a[1..] && b == [b[0]] + b[1..];
    }
  }

  lemma StablePermutationTransitive(a: seq<LogEntry>, b: seq<LogEntry>, c: seq<LogEntry>)
    requires StablePermutation(a, b) && StablePermutation(b, c)
    ensures StablePermutation(a, c)
  {
  }

  /** Exchanges `a[j - 1]` and `a[j]`, which have different timestamps. */
  method SwapNeighbours(a: array<LogEntry>, j: nat)
    requires 0 < j < a.Length
    requires a[j - 1].timestamp != a[j].timestamp
    modifies a
    ensures a[j - 1] == old(a[j]) && a[j] == old(a[j - 1])
    ensures forall m :: 0 <= m < a.Length && m != j - 1 && m != j ==> a[m] == old(a[m])
    ensures StablePermutation(a[..], old(a[..]))
  {
    SwapNeighboursStable(a[..], j);
    a[j - 1], a[j] := a[j], a[j - 1];
    assert a[..] == old(a[..])[j - 1 := old(a[j])][j := old(a[j - 1])];
  }

  /** Moves `a[i]` left past the entries before it with a strictly larger timestamp;
      `a[..i]` is sorted before, `a[..i + 1]` after. */
  method InsertLeft(a: array<LogEntry>, i: nat)
    requires i < a.Length
    requires forall k, l :: 0 <= k < l < i ==> a[k].timestamp <= a[l].timestamp
    modifies a
    ensures forall k, l :: 0 <= k < l <= i ==> a[k].timestamp <= a[l].timestamp
    ensures StablePermutation(a[..], old(a[..]))
    ensures a[i + 1..] == old(a[i + 1..])
  {
    var j := i;
    while 0 < j && a[j].timestamp < a[j - 1].timestamp
      invariant 0 <= j <= i
      // every pair is in order except, possibly, those ending at the moving entry
      invariant forall k, l :: 0 <= k < l <= i && l != j ==> a[k].timestamp <= a[l].timestamp
      invariant StablePermutation(a[..], old(a[..]))
      invariant a[i + 1..] == old(a[i + 1..])
    {
      ghost var before := a[..];
      SwapNeighbours(a, j);
      StablePermutationTransitive(a[..], before, old(a[..]));
      j := j - 1;
    }
  }

  /** `sort.SliceStable(logs, timestamp less)`, as an insertion sort. */
  method StableSortByTimestamp(a: array<LogEntry>)
    modifies a
    ensures SortedByTimestamp(a[..])
    ensures StablePermutation(a[..], old(a[..]))
  {
    var i := 0;
    while i < a.Length
      invariant 0 <= i <= a.Length
      invariant forall k, l :: 0 <= k < l < i ==> a[k].timestamp <= a[l].timestamp
      invariant StablePermutation(a[..], old(a[..]))
    {
      ghost var before := a[..];
      InsertLeft(a, i);
      StablePermutationTransitive(a[..], before, old(a[..]));
      i := i + 1;
    }
  }
}
