/** SQL's `WHERE key > $cursor ORDER BY key ASC LIMIT $n` over a finite key set. */
module Paging {

  predicate LeastAbove(keys: set<int>, after: int, m: int) {
    m in keys && m > after && forall k | k in keys && k > after :: m <= k
  }

  lemma {:induction false} LeastAboveExists(keys: set<int>, after: int)
    requires exists k :: k in keys && k > after
    ensures exists m :: LeastAbove(keys, after, m)
    decreases keys
  {
    var k :| k in keys && k > after;
    var rest := keys - {k};
    if exists j :: j in rest && j > after {
      LeastAboveExists(rest, after);
      var m :| LeastAbove(rest, after, m);
      var least := if k < m then k else m;
      forall j | j in keys && j > after
        ensures least <= j
      {
        assert j == k || j in rest;
      }
      assert LeastAbove(keys, after, least);
    } else {
      forall j | j in keys && j > after
        ensures k <= j
      {
        assert j == k || j in rest;
      }
      assert LeastAbove(keys, after, k);
    }
  }

  function Ordered(keys: set<int>, after: int, limit: nat): seq<int>
    decreases limit
  {
    if limit == 0 || forall k | k in keys :: k <= after then []
    else
      assert exists k :: k in keys && k > after;
      LeastAboveExists(keys, after);
      var m :| LeastAbove(keys, after, m);
      [m] + Ordered(keys, m, limit - 1)
  }

  /** COALESCE(MAX(key), 0) */
  function Largest(keys: set<int>): int {
    if !exists k :: k in keys then 0
    else
      LargestExists(keys);
      var m :| m in keys && forall k | k in keys :: k <= m;
      m
  }

  lemma {:induction false} LargestExists(keys: set<int>)
    requires exists k :: k in keys
    ensures exists m :: m in keys && forall k | k in keys :: k <= m
    decreases keys
  {
    var k :| k in keys;
    var rest := keys - {k};
    if !exists j :: j in rest {
      forall j | j in keys
        ensures j <= k
      {
        assert j == k || j in rest;
      }
    } else {
      LargestExists(rest);
      var m :| m in rest && forall j | j in rest :: j <= m;
      var most := if k > m then k else m;
      forall j | j in keys
        ensures j <= most
      {
        assert j == k || j in rest;
      }
      assert most in keys;
    }
  }

  predicate StrictlyIncreasing(s: seq<int>) {
    forall i, j | 0 <= i < j < |s| :: s[i] < s[j]
  }

  /** A page holds keys above the cursor, in order, at most limit of them. */
  lemma {:induction false} OrderedIncreases(keys: set<int>, after: int, limit: nat)
    ensures var page := Ordered(keys, after, limit);
      && |page| <= limit && StrictlyIncreasing(page) && forall k | k in page :: k in keys && k > after
    decreases limit
  {
    var page := Ordered(keys, after, limit);
    if page != [] {
      var m := page[0];
      assert LeastAbove(keys, after, m) && page == [m] + Ordered(keys, m, limit - 1);
      var rest := Ordered(keys, m, limit - 1);
      OrderedIncreases(keys, m, limit - 1);
      forall i, j | 0 <= i < j < |page|
        ensures page[i] < page[j]
      {
        assert page[j] == rest[j - 1] && rest[j - 1] in rest;
        assert i > 0 ==> page[i] == rest[i - 1];
      }
    }
  }

  /** Every element of the page is one of the keys above the cursor. */
  predicate FromKeys(page: seq<int>, keys: set<int>, after: int) {
    forall i | 0 <= i < |page| :: page[i] in keys && page[i] > after
  }

  lemma PageFromKeys(keys: set<int>, after: int, limit: nat)
    ensures FromKeys(Ordered(keys, after, limit), keys, after)
  {
    OrderedIncreases(keys, after, limit);
    var page := Ordered(keys, after, limit);
    assert forall i | 0 <= i < |page| :: page[i] in page;
  }

  /** The keys a page accounts for: up to its last one, or all when it is not full. */
  predicate Covers(page: seq<int>, limit: nat, k: int) {
    |page| < limit || (page != [] && k <= page[|page| - 1])
  }

  /** A page misses no key it accounts for. */
  lemma {:induction false} OrderedMissesNone(keys: set<int>, after: int, limit: nat, k: int)
    requires k in keys && k > after && Covers(Ordered(keys, after, limit), limit, k)
    ensures k in Ordered(keys, after, limit)
    decreases limit
  {
    var page := Ordered(keys, after, limit);
    assert page != [];
    var m := page[0];
    assert LeastAbove(keys, after, m) && page == [m] + Ordered(keys, m, limit - 1);
    var rest := Ordered(keys, m, limit - 1);
    if k != m {
      assert rest != [] ==> page[|page| - 1] == rest[|rest| - 1];
      OrderedMissesNone(keys, m, limit - 1, k);
    }
  }

  lemma OrderedFirst(keys: set<int>, after: int, limit: nat, m: int)
    requires limit > 0 && LeastAbove(keys, after, m)
    ensures Ordered(keys, after, limit) == [m] + Ordered(keys, m, limit - 1)
  {
  }

  /** Over the keys 1..n a page is the stretch of consecutive numbers after the cursor. */
  lemma {:induction false} OrderedConsecutive(keys: set<int>, n: nat, after: nat, limit: nat)
    requires forall k :: k in keys <==> 1 <= k <= n
    ensures var size := if after >= n then 0 else if n - after < limit then n - after else limit;
      Ordered(keys, after, limit) == seq(size, i => after + 1 + i)
    decreases limit
  {
    if limit > 0 && after < n {
      OrderedFirst(keys, after, limit, after + 1);
      OrderedConsecutive(keys, n, after + 1, limit - 1);
    }
  }

  function Elements(s: seq<int>): set<int> {
    set k | k in s
  }

  /** A page over an increasing sequence, read from behind its first n elements, is the next slice. */
  lemma {:induction false} OrderedIsSlice(s: seq<int>, n: nat, after: int, limit: nat)
    requires StrictlyIncreasing(s) && n <= |s|
    requires (forall i | 0 <= i < n :: s[i] <= after) && (forall i | n <= i < |s| :: s[i] > after)
    ensures Ordered(Elements(s), after, limit) == s[n..if |s| - n < limit then |s| else n + limit]
    decreases limit
  {
    if limit > 0 && n < |s| {
      assert LeastAbove(Elements(s), after, s[n]);
      OrderedFirst(Elements(s), after, limit, s[n]);
      OrderedIsSlice(s, n + 1, s[n], limit - 1);
      assert Ordered(Elements(s), after, limit) == [s[n]] + Ordered(Elements(s), s[n], limit - 1);
    }
  }
}
