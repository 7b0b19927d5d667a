/** The order in which the handlers store runs: by start-time text, newest
    first, as Python's `list.sort(key=..., reverse=True)` leaves them. Start
    times compare as Python compares strings, code point by code point; the sort
    is stable, so activities with the same start time keep their input order. */
module RunOrder {

  import opened Wrappers
  import opened Records

  /** Python's `a <= b` on strings: the first differing code point decides, and
      a proper prefix comes first. */
  predicate StrLe(a: string, b: string)
    decreases |a|
  {
    a == [] || (b != [] && (a[0] < b[0] || (a[0] == b[0] && StrLe(a[1..], b[1..]))))
  }

  /** The sort key `x.get("startTimeLocal", "")`; every record carries the key. */
  function StartKey(a: Activity): string {
    a.startTimeLocal.GetOr("")
  }

  /** Every start time is a string, so that the sort can compare them; with a
      null among several, Python's sort raises instead. */
  predicate AllStarted(s: seq<Activity>) {
    forall i :: 0 <= i < |s| ==> s[i].startTimeLocal.Some?
  }

  /** `x` started strictly after `y`. */
  predicate Newer(x: Activity, y: Activity) {
    !StrLe(StartKey(x), StartKey(y))
  }

  /** No activity is followed by a newer one. */
  predicate NewestFirst(s: seq<Activity>) {
    forall p, q :: 0 <= p < q < |s| ==> StrLe(StartKey(s[q]), StartKey(s[p]))
  }

  /** The activities of `s` with start key `k`, in order. */
  function WithKey(s: seq<Activity>, k: string): (r: seq<Activity>)
    ensures |r| <= |s|
  {
    if s == [] then []
    else WithKey(s[..|s| - 1], k) + (if StartKey(s[|s| - 1]) == k then [s[|s| - 1]] else [])
  }

  /** `t` is `s` reordered by a stable sort: for every start time, the
      activities that share it are in the same order in both. */
  ghost predicate SameTies(s: seq<Activity>, t: seq<Activity>) {
    forall k :: WithKey(s, k) == WithKey(t, k)
  }

  /** Sorts the array newest first, in place: a stable permutation of its
      contents. */
  method SortNewestFirst(a: array<Activity>)
    modifies a
    ensures NewestFirst(a[..])
    ensures multiset(a[..]) == multiset(old(a[..]))
    ensures SameTies(a[..], old(a[..]))
  {
    var i := 0;
    while i < a.Length
      invariant 0 <= i <= a.Length
      invariant NewestFirst(a[..i])
      invariant multiset(a[..]) == multiset(old(a[..]))
      invariant SameTies(a[..], old(a[..]))
    {
      InsertNewest(a, i);
      i := i + 1;
    }
    assert a[..a.Length] == a[..];
  }

  /** One insertion step: moves `a[i]` left past the strictly older activities
      before it, so that the first `i + 1` positions are newest first. */
  method InsertNewest(a: array<Activity>, i: nat)
    requires i < a.Length && NewestFirst(a[..i])
    modifies a
    ensures NewestFirst(a[..i + 1])
    ensures multiset(a[..]) == multiset(old(a[..]))
    ensures SameTies(a[..], old(a[..]))
  {
    var j := i;
    while j > 0 && Newer(a[j], a[j - 1])
      invariant 0 <= j <= i
      invariant multiset(a[..]) == multiset(old(a[..]))
      invariant SameTies(a[..], old(a[..]))
      invariant forall p, q :: 0 <= p < q <= i && p != j && q != j ==> StrLe(StartKey(a[q]), StartKey(a[p]))
      invariant forall q :: j < q <= i ==> Newer(a[j], a[q])
    {
      StrLeRefl(StartKey(a[j]));
      SwapDown(a, j);
      j := j - 1;
    }
    InsertedInOrder(a[..], j, i);
  }

  /** Swaps `a[j - 1]` and `a[j]`, which have different start keys. */
  method SwapDown(a: array<Activity>, j: nat)
    requires 0 < j < a.Length && StartKey(a[j - 1]) != StartKey(a[j])
    modifies a
    ensures a[..] == old(a[..])[j - 1 := old(a[j])][j := old(a[j - 1])]
    ensures multiset(a[..]) == multiset(old(a[..]))
    ensures SameTies(a[..], old(a[..]))
  {
    SwapKeepsTies(a[..], j - 1);
    a[j - 1], a[j] := a[j], a[j - 1];
  }

  // ----- lemmas -----

  lemma {:induction false} StrLeRefl(a: string)
    ensures StrLe(a, a)
  {
    if a != [] {
      StrLeRefl(a[1..]);
    }
  }

  /** Any two strings are comparable. */
  lemma {:induction false} StrLeTotal(a: string, b: string)
    ensures StrLe(a, b) || StrLe(b, a)
  {
    if a != [] && b != [] && a[0] == b[0] {
      StrLeTotal(a[1..], b[1..]);
    }
  }

  lemma {:induction false} StrLeTrans(a: string, b: string, c: string)
    requires StrLe(a, b) && StrLe(b, c)
    ensures StrLe(a, c)
  {
    if a != [] && b != [] && c != [] && a[0] == b[0] && b[0] == c[0] {
      StrLeTrans(a[1..], b[1..], c[1..]);
    }
  }

  lemma {:induction false} StrLeAntisym(a: string, b: string)
    requires StrLe(a, b) && StrLe(b, a)
    ensures a == b
  {
    if a != [] && b != [] {
      StrLeAntisym(a[1..], b[1..]);
      assert a == [a[0]] + a[1..] && b == [b[0]] + b[1..];
    }
  }

  /** Selecting by start key distributes over concatenation. */
  lemma {:induction false} WithKeyAppend(s: seq<Activity>, t: seq<Activity>, k: string)
    ensures WithKey(s + t, k) == WithKey(s, k) + WithKey(t, k)
  {
    if t == [] {
      assert s + t == s;
    } else {
      var t0 := t[..|t| - 1];
      WithKeyAppend(s, t0, k);
      assert (s + t)[..|s + t| - 1] == s + t0;
      assert (s + t)[|s + t| - 1] == t[|t| - 1];
    }
  }

  /** Two activities with different start keys are never in the same tie
      group, so their order does not matter to it. */
  lemma PairTies(x: Activity, y: Activity, k: string)
    requires StartKey(x) != StartKey(y)
    ensures WithKey([x, y], k) == WithKey([y, x], k)
  {
    assert [x, y][..1] == [x] && [y, x][..1] == [y];
    assert [x][..0] == [] && [y][..0] == [];
  }

  /** Swapping two neighbours with different start keys keeps every tie group
      in order. */
  lemma SwapKeepsTies(s: seq<Activity>, j: nat)
    requires j + 1 < |s| && StartKey(s[j]) != StartKey(s[j + 1])
    ensures SameTies(s[j := s[j + 1]][j + 1 := s[j]], s)
  {
    var x, y := s[j], s[j + 1];
    var pre, post := s[..j], s[j + 2..];
    assert s == pre + [x, y] + post;
    assert s[j := y][j + 1 := x] == pre + [y, x] + post;
    forall k
      ensures WithKey(pre + [y, x] + post, k) == WithKey(pre + [x, y] + post, k)
    {
      WithKeyAppend(pre + [x, y], post, k);
      WithKeyAppend(pre + [y, x], post, k);
      WithKeyAppend(pre, [x, y], k);
      WithKeyAppend(pre, [y, x], k);
      PairTies(x, y, k);
    }
  }

  /** Once the inserted activity stops, before an activity at least as new,
      the first `i + 1` positions are newest first. */
  lemma InsertedInOrder(s: seq<Activity>, j: nat, i: nat)
    requires j <= i < |s|
    requires forall p, q :: 0 <= p < q <= i && p != j && q != j ==> StrLe(StartKey(s[q]), StartKey(s[p]))
    requires forall q :: j < q <= i ==> Newer(s[j], s[q])
    requires j > 0 ==> !Newer(s[j], s[j - 1])
    ensures NewestFirst(s[..i + 1])
  {
    forall p, q | 0 <= p < q <= i
      ensures StrLe(StartKey(s[q]), StartKey(s[p]))
    {
      if q == j && p < j - 1 {
        StrLeTrans(StartKey(s[j]), StartKey(s[j - 1]), StartKey(s[p]));
      } else if p == j {
        StrLeTotal(StartKey(s[q]), StartKey(s[j]));
      }
    }
  }

  /** A newest-first sequence starts with its newest activity. */
  lemma NewestFirstHead(s: seq<Activity>, x: Activity)
    requires NewestFirst(s) && x in s
    ensures StrLe(StartKey(x), StartKey(s[0]))
  {
    var q :| 0 <= q < |s| && s[q] == x;
    if q == 0 {
      StrLeRefl(StartKey(x));
    }
  }
}
