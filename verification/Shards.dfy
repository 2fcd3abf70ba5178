/** Test files split across shards: longest first, each to the lightest shard. */
module Shards {
  import opened Sorting

  // ---- splits and their loads ----

  function SumOf(w: seq<real>): real {
    if w == [] then 0.0 else SumOf(w[..|w| - 1]) + w[|w| - 1]
  }

  /** The weight a split puts in shard `b`; `split[i]` is the shard of file `i`. */
  function Load(w: seq<real>, split: seq<nat>, b: nat): real
    requires |split| == |w|
  {
    if w == [] then 0.0
    else
      var n := |w| - 1;
      Load(w[..n], split[..n], b) + (if split[n] == b then w[n] else 0.0)
  }

  function LoadsBelow(w: seq<real>, split: seq<nat>, m: nat): real
    requires |split| == |w|
  {
    if m == 0 then 0.0 else LoadsBelow(w, split, m - 1) + Load(w, split, m - 1)
  }

  ghost predicate Split(split: seq<nat>, n: nat, m: nat) {
    |split| == n && forall i | 0 <= i < n :: split[i] < m
  }

  predicate NonNegative(w: seq<real>) { forall i | 0 <= i < |w| :: 0.0 <= w[i] }

  ghost predicate LongestFirst(w: seq<real>) { forall i, j | 0 <= i <= j < |w| :: w[j] <= w[i] }

  lemma {:induction false} LoadsBelowLast(w: seq<real>, split: seq<nat>, m: nat)
    requires |split| == |w| > 0
    ensures var n := |w| - 1;
      LoadsBelow(w, split, m) == LoadsBelow(w[..n], split[..n], m) + (if split[n] < m then w[n] else 0.0)
  {
    if m > 0 { LoadsBelowLast(w, split, m - 1); }
  }

  /** Nothing is lost or counted twice: the shards' loads add up to the total. */
  lemma {:induction false} LoadsAddUp(w: seq<real>, split: seq<nat>, m: nat)
    requires Split(split, |w|, m)
    ensures LoadsBelow(w, split, m) == SumOf(w)
  {
    if w == [] {
      EmptyLoads(w, split, m);
    } else {
      var n := |w| - 1;
      LoadsBelowLast(w, split, m);
      LoadsAddUp(w[..n], split[..n], m);
    }
  }

  lemma {:induction false} EmptyLoads(w: seq<real>, split: seq<nat>, m: nat)
    requires |split| == |w| == 0
    ensures LoadsBelow(w, split, m) == 0.0
  {
    if m > 0 { EmptyLoads(w, split, m - 1); }
  }

  lemma {:induction false} LoadsAtLeast(w: seq<real>, split: seq<nat>, m: nat, x: real)
    requires |split| == |w| && forall b | 0 <= b < m :: x <= Load(w, split, b)
    ensures m as real * x <= LoadsBelow(w, split, m)
  {
    if m > 0 {
      LoadsAtLeast(w, split, m - 1, x);
      assert m as real * x == (m - 1) as real * x + x;
    }
  }

  lemma {:induction false} LoadsAtMost(w: seq<real>, split: seq<nat>, m: nat, x: real)
    requires |split| == |w| && forall b | 0 <= b < m :: Load(w, split, b) <= x
    ensures LoadsBelow(w, split, m) <= m as real * x
  {
    if m > 0 {
      LoadsAtMost(w, split, m - 1, x);
      assert m as real * x == (m - 1) as real * x + x;
    }
  }

  lemma {:induction false} PrefixWeighsLess(w: seq<real>, k: nat)
    requires NonNegative(w) && k < |w|
    ensures SumOf(w[..k]) + w[k] <= SumOf(w)
  {
    var n := |w| - 1;
    if k < n {
      PrefixWeighsLess(w[..n], k);
      assert w[..n][..k] == w[..k];
    }
  }

  lemma {:induction false} LoadsNonNegative(w: seq<real>, split: seq<nat>, b: nat)
    requires NonNegative(w) && |split| == |w|
    ensures 0.0 <= Load(w, split, b)
  {
    if w != [] { LoadsNonNegative(w[..|w| - 1], split[..|w| - 1], b); }
  }

  lemma {:induction false} LoadGrows(w: seq<real>, split: seq<nat>, b: nat, k: nat)
    requires NonNegative(w) && |split| == |w| && k <= |w|
    ensures Load(w[..k], split[..k], b) <= Load(w, split, b)
  {
    if k < |w| {
      var n := |w| - 1;
      LoadGrows(w[..n], split[..n], b, k);
      assert w[..n][..k] == w[..k] && split[..n][..k] == split[..k];
    } else {
      assert w[..k] == w && split[..k] == split;
    }
  }

  /** No split avoids its heaviest file. */
  lemma {:induction false} FileFitsItsShard(w: seq<real>, split: seq<nat>, i: nat)
    requires NonNegative(w) && |split| == |w| && i < |w|
    ensures w[i] <= Load(w, split, split[i])
  {
    assert w[..i + 1][..i] == w[..i] && split[..i + 1][..i] == split[..i];
    LoadsNonNegative(w[..i], split[..i], split[i]);
    LoadGrows(w, split, split[i], i + 1);
  }

  // ---- the greedy split ----

  /** The first shard of least load. */
  function Lightest(w: seq<real>, split: seq<nat>, m: nat): (b: nat)
    requires |split| == |w| && m >= 1
    ensures b < m && forall c | 0 <= c < m :: Load(w, split, b) <= Load(w, split, c)
    ensures forall c | 0 <= c < b :: Load(w, split, b) < Load(w, split, c)
  {
    if m == 1 then 0
    else
      var b := Lightest(w, split, m - 1);
      if Load(w, split, m - 1) < Load(w, split, b) then m - 1 else b
  }

  function Greedy(w: seq<real>, m: nat): (split: seq<nat>)
    requires m >= 1
    ensures |split| == |w| && forall i | 0 <= i < |split| :: split[i] < m
  {
    if w == [] then []
    else
      var split := Greedy(w[..|w| - 1], m);
      split + [Lightest(w[..|w| - 1], split, m)]
  }

  lemma {:induction false} GreedyPrefix(w: seq<real>, m: nat, k: nat)
    requires m >= 1 && k <= |w|
    ensures Greedy(w, m)[..k] == Greedy(w[..k], m)
    ensures k < |w| ==> Greedy(w, m)[k] == Lightest(w[..k], Greedy(w[..k], m), m)
  {
    if k < |w| {
      var n := |w| - 1;
      assert w[..n][..k] == w[..k];
      GreedyPrefix(w[..n], m, k);
      if k < n {
        assert Greedy(w, m)[..k] == Greedy(w[..n], m)[..k];
      }
    } else {
      assert w[..k] == w;
    }
  }

  /** The last file of a non-empty shard arrived when the shard was lightest. */
  lemma {:induction false} LastArrival(w: seq<real>, split: seq<nat>, b: nat) returns (k: nat)
    requires |split| == |w| && Load(w, split, b) != 0.0
    ensures k < |w| && split[k] == b && Load(w, split, b) == Load(w[..k], split[..k], b) + w[k]
  {
    var n := |w| - 1;
    if split[n] == b {
      k := n;
    } else {
      k := LastArrival(w[..n], split[..n], b);
      assert w[..n][..k] == w[..k] && split[..n][..k] == split[..k];
    }
  }

  lemma ArrivedLightest(w: seq<real>, m: nat, k: nat, c: nat)
    requires m >= 1 && k < |w| && c < m
    ensures Load(w[..k], Greedy(w, m)[..k], Greedy(w, m)[k]) <= Load(w[..k], Greedy(w, m)[..k], c)
  {
    GreedyPrefix(w, m, k);
  }

  lemma ShareOfLightest(w: seq<real>, split: seq<nat>, m: nat, x: real)
    requires Split(split, |w|, m) && forall c | 0 <= c < m :: x <= Load(w, split, c)
    ensures m as real * x <= SumOf(w)
  {
    hide Load, LoadsBelow, SumOf;
    LoadsAtLeast(w, split, m, x);
    LoadsAddUp(w, split, m);
  }

  /** When the last file arrived, its shard held at most an even share. */
  lemma ArrivalIsAverage(w: seq<real>, m: nat, b: nat, k: nat)
    requires m >= 1 && b < m && k < |w| && NonNegative(w) && Greedy(w, m)[k] == b
    ensures m as real * Load(w[..k], Greedy(w, m)[..k], b) <= SumOf(w) - w[k]
  {
    hide *;
    var before, split := w[..k], Greedy(w, m)[..k];
    var x := Load(before, split, b);
    forall c | 0 <= c < m ensures x <= Load(before, split, c) { ArrivedLightest(w, m, k, c); }
    GreedySplits(w, m, k);
    ShareOfLightest(before, split, m, x);
    PrefixWeighsLess(w, k);
  }

  lemma GreedySplits(w: seq<real>, m: nat, k: nat)
    requires m >= 1 && k <= |w|
    ensures Split(Greedy(w, m)[..k], k, m)
  {
  }

  /** m x <= S - p and p <= h give m (x + p) <= S + (m - 1) h. */
  lemma ShareAndOne(c: real, x: real, p: real, S: real, h: real)
    requires c >= 1.0 && c * x <= S - p && p <= h
    ensures c * (x + p) <= S + (c - 1.0) * h
  {
    assert c * (x + p) == c * x + (c - 1.0) * p + p;
    assert 0.0 <= (c - 1.0) * (h - p);
  }

  /** With p at most a third of T, the same step gives the 4/3 bound. */
  lemma ThirdOfShare(c: real, x: real, p: real, S: real, T: real)
    requires c >= 1.0 && c * x <= S - p && S <= c * T && 3.0 * p <= T
    ensures 3.0 * (c * (x + p)) <= (4.0 * c - 1.0) * T
  {
    assert c * (x + p) == c * x + (c - 1.0) * p + p;
    assert 0.0 <= (c - 1.0) * (T - 3.0 * p);
  }

  lemma WholeShare(c: real, y: real, T: real)
    requires c >= 1.0 && y <= T && 0.0 <= T
    ensures 3.0 * (c * y) <= (4.0 * c - 1.0) * T
  {
    assert 0.0 <= c * (T - y);
    assert 0.0 <= (c - 1.0) * T;
  }

  /** For any non-negative weights in any order, no shard exceeds an even
      share by more than (m - 1)/m of one file. */
  lemma SlowestNearAverage(w: seq<real>, m: nat, b: nat, heaviest: real)
    requires m >= 1 && b < m && NonNegative(w) && 0.0 <= heaviest && forall i | 0 <= i < |w| :: w[i] <= heaviest
    ensures m as real * Load(w, Greedy(w, m), b) <= SumOf(w) + (m as real - 1.0) * heaviest
  {
    hide Load, Greedy, SumOf;
    var split, c := Greedy(w, m), m as real;
    SumNonNegative(w);
    assert 0.0 <= (c - 1.0) * heaviest;
    if Load(w, split, b) != 0.0 {
      var k := LastArrival(w, split, b);
      ArrivalIsAverage(w, m, b, k);
      ShareAndOne(c, Load(w[..k], split[..k], b), w[k], SumOf(w), heaviest);
    }
  }

  lemma {:induction false} SumNonNegative(w: seq<real>)
    requires NonNegative(w)
    ensures 0.0 <= SumOf(w)
  {
    if w != [] { SumNonNegative(w[..|w| - 1]); }
  }

  /** A split whose slowest shard takes at most `T`. */
  ghost predicate Within(w: seq<real>, other: seq<nat>, m: nat, T: real) {
    Split(other, |w|, m) && forall b | 0 <= b < m :: Load(w, other, b) <= T
  }

  lemma AnySplitBounds(w: seq<real>, other: seq<nat>, m: nat, T: real)
    requires m >= 1 && NonNegative(w) && Within(w, other, m, T)
    ensures SumOf(w) <= m as real * T && 0.0 <= T
    ensures forall i | 0 <= i < |w| :: w[i] <= T
  {
    LoadsAtMost(w, other, m, T);
    LoadsAddUp(w, other, m);
    LoadsNonNegative(w, other, 0);
    forall i | 0 <= i < |w| ensures w[i] <= T { FileFitsItsShard(w, other, i); }
  }

  /** The slowest shard takes at most (2 - 1/m) times the slowest shard of any
      other split. */
  lemma TwiceAnySplit(w: seq<real>, m: nat, b: nat, other: seq<nat>, T: real)
    requires m >= 1 && b < m && NonNegative(w) && Within(w, other, m, T)
    ensures m as real * Load(w, Greedy(w, m), b) <= (2.0 * m as real - 1.0) * T
  {
    hide *;
    AnySplitBounds(w, other, m, T);
    SlowestNearAverage(w, m, b, T);
    AddShares(m as real, T);
  }

  lemma AddShares(c: real, T: real)
    ensures c * T + (c - 1.0) * T == (2.0 * c - 1.0) * T
  {
  }

  // ---- longest first ----

  /** Every file scores one, and one more if it leaves no room under `T` for a
      file of weight `p`. */
  function Scores(w: seq<real>, p: real, T: real): (v: seq<real>)
    ensures |v| == |w|
  {
    seq(|w|, i requires 0 <= i < |w| => if w[i] + p > T then 2.0 else 1.0)
  }

  /** A shard scoring below two has room left for a file of weight `p`. */
  lemma {:induction false} LowScoreHasRoom(w: seq<real>, split: seq<nat>, b: nat, p: real, T: real)
    requires |split| == |w| && p <= T
    ensures var score := Load(Scores(w, p, T), split, b);
      || (score == 0.0 && Load(w, split, b) == 0.0)
      || (score == 1.0 && Load(w, split, b) + p <= T)
      || score >= 2.0
  {
    if w != [] {
      var n := |w| - 1;
      LowScoreHasRoom(w[..n], split[..n], b, p, T);
      assert Scores(w, p, T)[..n] == Scores(w[..n], p, T);
    }
  }

  /** When every file takes more than a third of `T`, a shard scoring above two
      is over `T`. */
  lemma {:induction false} HighScoreIsOver(w: seq<real>, split: seq<nat>, b: nat, p: real, T: real)
    requires |split| == |w| && 0.0 <= p && T < 3.0 * p && forall i | 0 <= i < |w| :: p <= w[i]
    ensures var score, load := Load(Scores(w, p, T), split, b), Load(w, split, b);
      || (score == 0.0 && load == 0.0)
      || (score == 1.0 && p <= load)
      || (score == 2.0 && T < load + p && p <= load)
      || (score >= 3.0 && T < load && p <= load)
  {
    if w != [] {
      var n := |w| - 1;
      HighScoreIsOver(w[..n], split[..n], b, p, T);
      assert Scores(w, p, T)[..n] == Scores(w[..n], p, T);
    }
  }

  /** A split of one more file scores one more, at least. */
  lemma ScoresGrow(w: seq<real>, k: nat, p: real, T: real)
    requires k < |w|
    ensures SumOf(Scores(w[..k + 1], p, T)) >= SumOf(Scores(w[..k], p, T)) + 1.0
  {
    var v := Scores(w[..k + 1], p, T);
    assert v[..k] == Scores(w[..k], p, T);
  }

  /** Files heavier than a third of `T` are placed as well as by any split:
      otherwise the shards before the file and those of the other split with
      it would have to share the same scores. */
  lemma HeavyFilesFit(w: seq<real>, m: nat, b: nat, k: nat, other: seq<nat>, T: real)
    requires m >= 1 && b < m && k < |w| && NonNegative(w) && LongestFirst(w) && Within(w, other, m, T)
    requires Greedy(w, m)[k] == b && T < 3.0 * w[k]
    ensures Load(w[..k], Greedy(w, m)[..k], b) + w[k] <= T
  {
    var p, split := w[k], Greedy(w, m);
    AnySplitBounds(w, other, m, T);
    if Load(w[..k], split[..k], b) + p > T {
      forall c | 0 <= c < m ensures 2.0 <= Load(Scores(w[..k], p, T), split[..k], c) {
        ArrivedLightest(w, m, k, c);
        LowScoreHasRoom(w[..k], split[..k], c, p, T);
      }
      LoadsAtLeast(Scores(w[..k], p, T), split[..k], m, 2.0);
      LoadsAddUp(Scores(w[..k], p, T), split[..k], m);
      var scores, upTo := Scores(w[..k + 1], p, T), other[..k + 1];
      forall c | 0 <= c < m ensures Load(scores, upTo, c) <= 2.0 {
        LoadGrows(w, other, c, k + 1);
        HighScoreIsOver(w[..k + 1], upTo, c, p, T);
      }
      LoadsAtMost(scores, upTo, m, 2.0);
      LoadsAddUp(scores, upTo, m);
      ScoresGrow(w, k, p, T);
      assert false;
    }
  }

  /** Longest first, the slowest shard takes at most (4/3 - 1/(3m)) times the
      slowest shard of any other split. */
  lemma FourThirdsOfAnySplit(w: seq<real>, m: nat, b: nat, other: seq<nat>, T: real)
    requires m >= 1 && b < m && NonNegative(w) && LongestFirst(w) && Within(w, other, m, T)
    ensures 3.0 * (m as real * Load(w, Greedy(w, m), b)) <= (4.0 * m as real - 1.0) * T
  {
    hide Load, Greedy, SumOf, LongestFirst, NonNegative;
    var split, c := Greedy(w, m), m as real;
    AnySplitBounds(w, other, m, T);
    if Load(w, split, b) == 0.0 {
      WholeShare(c, 0.0, T);
    } else {
      var k := LastArrival(w, split, b);
      if T < 3.0 * w[k] {
        HeavyFilesFit(w, m, b, k, other, T);
        WholeShare(c, Load(w, split, b), T);
      } else {
        ArrivalIsAverage(w, m, b, k);
        ThirdOfShare(c, Load(w[..k], split[..k], b), w[k], SumOf(w), T);
      }
    }
  }

  // ---- the tool ----

  datatype File = File(name: string, weight: real)

  datatype ShardError = ShardOutsideRange | NoFilesFound

  datatype Outcome = Shard(files: seq<string>) | Refused(error: ShardError)

  predicate Earlier(a: File, b: File) { a.weight > b.weight || (a.weight == b.weight && NameLeq(a.name, b.name)) }

  function Weights(files: seq<File>): (w: seq<real>)
    ensures |w| == |files|
  {
    seq(|files|, i requires 0 <= i < |files| => files[i].weight)
  }

  function Names(files: seq<File>): (names: seq<string>)
    ensures |names| == |files|
  {
    seq(|files|, i requires 0 <= i < |files| => files[i].name)
  }

  lemma ConsLongestFirst(x: File, s: seq<File>)
    requires LongestFirst(Weights(s)) && forall j | 0 <= j < |s| :: s[j].weight <= x.weight
    ensures LongestFirst(Weights([x] + s))
  {
    var r := Weights([x] + s);
    forall i, j | 0 <= i <= j < |r| ensures r[j] <= r[i] {
      if i > 0 { assert Weights(s)[j - 1] <= Weights(s)[i - 1]; }
    }
  }

  lemma TailLongestFirst(s: seq<File>)
    requires s != [] && LongestFirst(Weights(s))
    ensures LongestFirst(Weights(s[1..])) && forall j | 0 <= j < |s| :: s[j].weight <= s[0].weight
  {
    var w := Weights(s);
    assert Weights(s[1..]) == w[1..];
    forall j | 0 <= j < |s| ensures s[j].weight <= s[0].weight {
      assert w[j] <= w[0];
    }
  }

  lemma {:induction false} InsertKeepsLongestFirst(x: File, s: seq<File>)
    requires LongestFirst(Weights(s))
    ensures LongestFirst(Weights(Insert(x, s, Earlier)))
  {
    hide LongestFirst, Weights;
    if s == [] {
      ConsLongestFirst(x, s);
      assert [x] + s == [x];
    } else if Earlier(x, s[0]) {
      TailLongestFirst(s);
      ConsLongestFirst(x, s);
    } else {
      TailLongestFirst(s);
      InsertKeepsLongestFirst(x, s[1..]);
      InsertAdds(x, s[1..], Earlier);
      var rest := Insert(x, s[1..], Earlier);
      forall j | 0 <= j < |rest| ensures rest[j].weight <= s[0].weight {
        assert rest[j] in multiset(s[1..]) + multiset{x} by { assert rest[j] in multiset(rest); }
      }
      ConsLongestFirst(s[0], rest);
    }
  }

  lemma {:induction false} SortedIsLongestFirst(files: seq<File>)
    ensures LongestFirst(Weights(Sorted(files, Earlier)))
  {
    if files == [] {
      assert Sorted(files, Earlier) == [];
    } else {
      SortedIsLongestFirst(files[..|files| - 1]);
      InsertKeepsLongestFirst(files[|files| - 1], Sorted(files[..|files| - 1], Earlier));
    }
  }

  /** The names a split gives shard `b`, in order. */
  function Picked(order: seq<File>, split: seq<nat>, b: nat): seq<string>
    requires |split| == |order|
  {
    if order == [] then []
    else
      var n := |order| - 1;
      Picked(order[..n], split[..n], b) + (if split[n] == b then [order[n].name] else [])
  }

  function PickedBelow(order: seq<File>, split: seq<nat>, m: nat): multiset<string>
    requires |split| == |order|
  {
    if m == 0 then multiset{} else PickedBelow(order, split, m - 1) + multiset(Picked(order, split, m - 1))
  }

  lemma PickedLast(order: seq<File>, split: seq<nat>, b: nat)
    requires |split| == |order| > 0
    ensures var n := |order| - 1;
      multiset(Picked(order, split, b))
      == multiset(Picked(order[..n], split[..n], b)) + (if split[n] == b then multiset{order[n].name} else multiset{})
  {
  }

  lemma {:induction false} PickedBelowLast(order: seq<File>, split: seq<nat>, m: nat)
    requires |split| == |order| > 0
    ensures var n := |order| - 1;
      PickedBelow(order, split, m)
      == PickedBelow(order[..n], split[..n], m) + (if split[n] < m then multiset{order[n].name} else multiset{})
  {
    hide Picked;
    if m > 0 {
      PickedBelowLast(order, split, m - 1);
      PickedLast(order, split, m - 1);
    }
  }

  lemma {:induction false} NothingPicked(order: seq<File>, split: seq<nat>, m: nat)
    requires |split| == |order| == 0
    ensures PickedBelow(order, split, m) == multiset{}
  {
    if m > 0 { NothingPicked(order, split, m - 1); }
  }

  lemma NamesOfSnoc(s: seq<File>, x: File)
    ensures multiset(Names(s + [x])) == multiset(Names(s)) + multiset{x.name}
  {
    assert Names(s + [x]) == Names(s) + [x.name];
  }

  /** The shards hold exactly the files, each once. */
  lemma {:induction false} ShardsPartition(order: seq<File>, split: seq<nat>, m: nat)
    requires Split(split, |order|, m)
    ensures PickedBelow(order, split, m) == multiset(Names(order))
  {
    hide Names;
    if order == [] {
      assert Names(order) == [];
      NothingPicked(order, split, m);
    } else {
      var n := |order| - 1;
      assert split[n] < m;
      ShardsPartition(order[..n], split[..n], m);
      hide *;
      OneMorePicked(order, split, m);
    }
  }

  lemma OneMorePicked(order: seq<File>, split: seq<nat>, m: nat)
    requires |split| == |order| > 0 && split[|order| - 1] < m
    requires PickedBelow(order[..|order| - 1], split[..|order| - 1], m) == multiset(Names(order[..|order| - 1]))
    ensures PickedBelow(order, split, m) == multiset(Names(order))
  {
    hide *;
    var n := |order| - 1;
    PickedBelowLast(order, split, m);
    NamesOfSnoc(order[..n], order[n]);
    assert order[..n] + [order[n]] == order;
  }

  /** `totals.index(min(totals))`. */
  method FirstLeast(totals: array<real>) returns (target: nat)
    requires totals.Length >= 1
    ensures target < totals.Length
    ensures forall c | 0 <= c < totals.Length :: totals[target] <= totals[c]
    ensures forall c | 0 <= c < target :: totals[target] < totals[c]
  {
    target := 0;
    for i := 1 to totals.Length
      invariant target < i
      invariant forall c | 0 <= c < i :: totals[target] <= totals[c]
      invariant forall c | 0 <= c < target :: totals[target] < totals[c]
    {
      if totals[i] < totals[target] { target := i; }
    }
  }

  /** The shards as the greedy split of these files has them. */
  ghost predicate Balanced(buckets: seq<seq<string>>, totals: seq<real>, order: seq<File>, count: nat)
    requires count >= 1
  {
    && |buckets| == |totals| == count
    && (forall b: nat | b < count :: totals[b] == Load(Weights(order), Greedy(Weights(order), count), b))
    && (forall b: nat | b < count :: buckets[b] == Picked(order, Greedy(Weights(order), count), b))
  }

  lemma BalancedStart(count: nat)
    requires count >= 1
    ensures Balanced(seq(count, _ => []), seq(count, _ => 0.0), [], count)
  {
  }

  /** Putting one more file on the first lightest shard. */
  lemma BalancedNext(buckets: seq<seq<string>>, totals: seq<real>, order: seq<File>, count: nat, f: File, target: nat)
    requires count >= 1 && Balanced(buckets, totals, order, count) && target < count
    requires forall c: nat | c < count :: totals[target] <= totals[c]
    requires forall c: nat | c < target :: totals[target] < totals[c]
    ensures Balanced(buckets[target := buckets[target] + [f.name]], totals[target := totals[target] + f.weight],
                     order + [f], count)
  {
    var w, split, w' := Weights(order), Greedy(Weights(order), count), Weights(order + [f]);
    assert w'[..|order|] == w && w'[|order|] == f.weight;
    assert (order + [f])[..|order|] == order;
    forall c: nat | c < count ensures Load(w, split, target) <= Load(w, split, c) { assert totals[target] <= totals[c]; }
    forall c: nat | c < target ensures Load(w, split, target) < Load(w, split, c) { assert totals[target] < totals[c]; }
    FirstLeastIsLightest(w, split, count, target);
    var split' := Greedy(w', count);
    assert split' == split + [target] && split'[..|order|] == split;
    hide Greedy;
    forall b: nat | b < count
      ensures Load(w', split', b) == Load(w, split, b) + (if b == target then f.weight else 0.0)
      ensures Picked(order + [f], split', b) == Picked(order, split, b) + (if b == target then [f.name] else [])
    {
    }
  }

  /** Fills the shards in place, in the given order. */
  method Balance(order: seq<File>, count: nat) returns (buckets: array<seq<string>>, totals: array<real>)
    requires count >= 1
    ensures Balanced(buckets[..], totals[..], order, count)
  {
    hide Balanced;
    buckets := new seq<string>[count](_ => []);
    totals := new real[count](_ => 0.0);
    BalancedStart(count);
    assert buckets[..] == seq(count, _ => []) && totals[..] == seq(count, _ => 0.0);
    for i := 0 to |order|
      invariant Balanced(buckets[..], totals[..], order[..i], count)
    {
      var target := FirstLeast(totals);
      var f := order[i];
      BalancedNext(buckets[..], totals[..], order[..i], count, f, target);
      assert order[..i + 1] == order[..i] + [f];
      buckets[target] := buckets[target] + [f.name];
      totals[target] := totals[target] + f.weight;
    }
    assert order[..|order|] == order;
  }

  lemma FirstLeastIsLightest(w: seq<real>, split: seq<nat>, m: nat, b: nat)
    requires |split| == |w| && b < m
    requires forall c: nat | c < m :: Load(w, split, b) <= Load(w, split, c)
    requires forall c: nat | c < b :: Load(w, split, b) < Load(w, split, c)
    ensures b == Lightest(w, split, m)
  {
    var l := Lightest(w, split, m);
    var least, ours := Load(w, split, l), Load(w, split, b);
    assert !(l < b) && !(b < l);
  }

  /** A file missing from the table counts as `default`. */
  function Weighed(names: seq<string>, known: map<string, real>, default: real): (files: seq<File>)
    ensures |files| == |names|
  {
    seq(|names|, i requires 0 <= i < |names| => File(names[i], if names[i] in known then known[names[i]] else default))
  }

  function OrderOf(names: seq<string>, known: map<string, real>, default: real): seq<File> {
    Sorted(Weighed(names, known, default), Earlier)
  }

  // ---- what a shard takes, by the table ----

  /** The duration of the files by the table, `default` standing for those it
      does not know. */
  function Duration(names: seq<string>, known: map<string, real>, default: real): real {
    if names == [] then 0.0
    else Duration(names[..|names| - 1], known, default) + Takes(names[|names| - 1], known, default)
  }

  function Takes(name: string, known: map<string, real>, default: real): real {
    if name in known then known[name] else default
  }

  /** Some other way to deal the files, every shard within `T`. */
  ghost predicate Deals(deal: seq<seq<string>>, names: seq<string>, known: map<string, real>, default: real, T: real) {
    Together(deal) == multiset(names) && forall b | 0 <= b < |deal| :: Duration(deal[b], known, default) <= T
  }

  ghost function Together(deal: seq<seq<string>>): multiset<string> {
    if deal == [] then multiset{} else Together(deal[..|deal| - 1]) + multiset(deal[|deal| - 1])
  }

  /** The files of shard `b` (from 0), in the order the tool prints them. */
  ghost function FilesOf(names: seq<string>, known: map<string, real>, default: real, count: nat, b: nat): seq<string>
    requires count >= 1
  {
    var order := OrderOf(names, known, default);
    Sorted(Picked(order, Greedy(Weights(order), count), b), NameLeq)
  }

  /** `x` is at most (4/3 - 1/(3 count)) times `T`. */
  predicate WithinThirds(count: nat, x: real, T: real) { 3.0 * (count as real * x) <= (4.0 * count as real - 1.0) * T }

  ghost predicate IsBalanced(files: seq<string>, names: seq<string>, known: map<string, real>, default: real, count: nat) {
    forall deal, T | |deal| == count && Deals(deal, names, known, default, T) ::
      WithinThirds(count, Duration(files, known, default), T)
  }

  /** One shard of the files, sorted by name.  It takes no more than (4/3 -
      1/(3 count)) times as long as the slowest shard of any other deal. */
  method ShardFiles(shard: int, count: int, names: seq<string>, known: map<string, real>, default: real)
    returns (r: Outcome)
    ensures r.Refused? <==> !(1 <= shard <= count) || names == []
    ensures r.Refused? ==> r.error == if 1 <= shard <= count then NoFilesFound else ShardOutsideRange
    ensures r.Shard? ==> r.files == FilesOf(names, known, default, count, shard - 1) && InOrder(r.files, NameLeq)
    ensures r.Shard? && 0.0 <= default && (forall n | n in known :: 0.0 <= known[n]) ==>
              IsBalanced(r.files, names, known, default, count)
  {
    hide *;
    if !(1 <= shard <= count) { return Refused(ShardOutsideRange); }
    if names == [] { return Refused(NoFilesFound); }
    var order := OrderOf(names, known, default);
    var buckets, totals := Balance(order, count);
    BucketIsFiles(buckets[..], totals[..], names, known, default, count, shard - 1);
    assert buckets[..][shard - 1] == buckets[shard - 1];
    FilesAreBalanced(names, known, default, count, shard - 1);
    FilesAreInOrder(buckets[shard - 1]);
    return Shard(Sorted(buckets[shard - 1], NameLeq));
  }

  lemma BucketIsFiles(buckets: seq<seq<string>>, totals: seq<real>, names: seq<string>, known: map<string, real>, default: real,
                      count: nat, b: nat)
    requires b < count && Balanced(buckets, totals, OrderOf(names, known, default), count)
    ensures b < |buckets| && Sorted(buckets[b], NameLeq) == FilesOf(names, known, default, count, b)
  {
    hide Picked, Greedy, OrderOf, Sorted, Load;
  }

  lemma FilesAreInOrder(names: seq<string>)
    ensures InOrder(Sorted(names, NameLeq), NameLeq)
  {
    NamesAreOrdered();
    SortedIsInOrder(names, NameLeq);
  }

  lemma FilesAreBalanced(names: seq<string>, known: map<string, real>, default: real, count: nat, b: nat)
    requires b < count
    ensures 0.0 <= default && (forall n | n in known :: 0.0 <= known[n]) ==>
              IsBalanced(FilesOf(names, known, default, count, b), names, known, default, count)
  {
    hide FilesOf, Duration, Deals;
    if 0.0 <= default && (forall n | n in known :: 0.0 <= known[n]) {
      forall deal, T | |deal| == count && Deals(deal, names, known, default, T)
        ensures WithinThirds(count, Duration(FilesOf(names, known, default, count, b), known, default), T)
      {
        ShardsAreBalanced(names, known, default, count, b, deal, T);
      }
    }
  }

  lemma {:induction false} DurationWithout(names: seq<string>, i: nat, known: map<string, real>, default: real)
    requires i < |names|
    ensures Duration(names, known, default)
         == Duration(names[..i] + names[i + 1..], known, default) + Takes(names[i], known, default)
    decreases |names|
  {
    hide Takes;
    var n := |names| - 1;
    if i == n {
      assert names[..i] + names[i + 1..] == names[..n];
    } else {
      DurationWithout(names[..n], i, known, default);
      var less := names[..i] + names[i + 1..];
      assert less[..|less| - 1] == names[..n][..i] + names[..n][i + 1..];
    }
  }

  lemma WithoutOne(names: seq<string>, i: nat)
    requires i < |names|
    ensures multiset(names[..i] + names[i + 1..]) == multiset(names) - multiset{names[i]}
  {
    assert names == names[..i] + [names[i]] + names[i + 1..];
  }

  lemma SameSize(a: seq<string>, b: seq<string>)
    requires multiset(a) == multiset(b)
    ensures |a| == |b|
  {
    assert |a| == |multiset(a)| == |multiset(b)| == |b|;
  }

  lemma PlaceOf(x: string, s: seq<string>) returns (i: nat)
    requires x in multiset(s)
    ensures i < |s| && s[i] == x
  {
    i :| 0 <= i < |s| && s[i] == x;
  }

  /** The order of names does not change how long they take. */
  lemma {:induction false} SameDuration(a: seq<string>, b: seq<string>, known: map<string, real>, default: real)
    requires multiset(a) == multiset(b)
    ensures Duration(a, known, default) == Duration(b, known, default)
    decreases |a|
  {
    hide *;
    SameSize(a, b);
    if a == [] {
      assert a == b;
    } else {
      assert a[0] in multiset(b) by { assert a[0] in multiset(a); }
      var i := PlaceOf(a[0], b);
      WithoutOne(a, 0);
      WithoutOne(b, i);
      SameDuration(a[..0] + a[1..], b[..i] + b[i + 1..], known, default);
      DurationWithout(a, 0, known, default);
      DurationWithout(b, i, known, default);
    }
  }

  ghost predicate FromTable(order: seq<File>, known: map<string, real>, default: real) {
    forall i | 0 <= i < |order| :: order[i].weight == Takes(order[i].name, known, default)
  }

  lemma OrderIsFromTable(names: seq<string>, known: map<string, real>, default: real)
    ensures FromTable(OrderOf(names, known, default), known, default)
    ensures multiset(Names(OrderOf(names, known, default))) == multiset(names)
  {
    var files := Weighed(names, known, default);
    var order := Sorted(files, Earlier);
    SortedPermutes(files, Earlier);
    NamesOfSorted(files);
    assert Names(files) == names;
    forall i | 0 <= i < |order| ensures order[i].weight == Takes(order[i].name, known, default) {
      assert order[i] in multiset(files) by { assert order[i] in multiset(order); }
    }
  }

  /** A shard's load is what its names take. */
  lemma {:induction false} LoadIsDuration(order: seq<File>, split: seq<nat>, b: nat, known: map<string, real>, default: real)
    requires FromTable(order, known, default) && |split| == |order|
    ensures Load(Weights(order), split, b) == Duration(Picked(order, split, b), known, default)
  {
    if order != [] {
      var n := |order| - 1;
      LoadIsDuration(order[..n], split[..n], b, known, default);
      assert Weights(order)[..n] == Weights(order[..n]);
      var most := Picked(order[..n], split[..n], b);
      assert (most + [order[n].name])[..|most|] == most && most + [] == most;
    }
  }

  lemma {:induction false} SomewhereIn(deal: seq<seq<string>>, x: string) returns (b: nat)
    requires x in Together(deal)
    ensures b < |deal| && x in deal[b]
  {
    var n := |deal| - 1;
    if x in deal[n] { b := n; } else { b := SomewhereIn(deal[..n], x); }
  }

  lemma TogetherLast(deal: seq<seq<string>>)
    requires deal != []
    ensures Together(deal) == Together(deal[..|deal| - 1]) + multiset(deal[|deal| - 1])
  {
  }

  lemma {:induction false} TogetherWithout(deal: seq<seq<string>>, b: nat, less: seq<string>, x: string)
    requires b < |deal| && multiset(less) == multiset(deal[b]) - multiset{x} && x in deal[b]
    ensures Together(deal[b := less]) == Together(deal) - multiset{x}
  {
    hide Together;
    var n := |deal| - 1;
    var changed := deal[b := less];
    TogetherLast(deal);
    TogetherLast(changed);
    if b == n {
      assert changed[..n] == deal[..n] && x in multiset(deal[b]);
    } else {
      TogetherWithout(deal[..n], b, less, x);
      assert changed[..n] == deal[..n][b := less] && changed[n] == deal[n];
      BelongsTogether(deal[..n], b, x);
    }
  }

  lemma {:induction false} BelongsTogether(deal: seq<seq<string>>, b: nat, x: string)
    requires b < |deal| && x in deal[b]
    ensures x in Together(deal)
  {
    var n := |deal| - 1;
    if b < n { BelongsTogether(deal[..n], b, x); }
  }

  ghost predicate Loads(order: seq<File>, split: seq<nat>, deal: seq<seq<string>>, known: map<string, real>, default: real)
    requires |split| == |order|
  {
    forall b | 0 <= b < |deal| :: Load(Weights(order), split, b) == Duration(deal[b], known, default)
  }

  lemma NothingDealt(deal: seq<seq<string>>, known: map<string, real>, default: real)
    requires Together(deal) == multiset{}
    ensures Loads([], [], deal, known, default)
  {
    forall b | 0 <= b < |deal| ensures deal[b] == [] { EmptyDeal(deal, b); }
  }

  /** The last file taken out of the shard it was dealt to. */
  lemma TakenOut(order: seq<File>, deal: seq<seq<string>>, known: map<string, real>, default: real) returns (b: nat, less: seq<string>)
    requires order != [] && Together(deal) == multiset(Names(order))
    ensures b < |deal| && Together(deal[b := less]) == multiset(Names(order[..|order| - 1]))
    ensures Duration(deal[b], known, default) == Duration(less, known, default) + Takes(order[|order| - 1].name, known, default)
  {
    hide Duration, Takes, Names;
    var n := |order| - 1;
    var x := order[n].name;
    NamesOfSnoc(order[..n], order[n]);
    assert order[..n] + [order[n]] == order;
    b := SomewhereIn(deal, x);
    var i := PlaceOf(x, deal[b]);
    less := deal[b][..i] + deal[b][i + 1..];
    WithoutOne(deal[b], i);
    TogetherWithout(deal, b, less, x);
    DurationWithout(deal[b], i, known, default);
  }

  /** Any deal of the names is a split of the files in their order. */
  lemma {:induction false} DealIsASplit(order: seq<File>, deal: seq<seq<string>>, known: map<string, real>, default: real)
      returns (split: seq<nat>)
    requires FromTable(order, known, default) && Together(deal) == multiset(Names(order))
    ensures Split(split, |order|, |deal|) && Loads(order, split, deal, known, default)
    decreases |order|
  {
    hide Loads, Together, Names, Duration, Takes;
    if order == [] {
      split := [];
      assert multiset(Names(order)) == multiset{} by { assert Names(order) == []; }
      NothingDealt(deal, known, default);
    } else {
      var n := |order| - 1;
      var b, less := TakenOut(order, deal, known, default);
      var earlier := DealIsASplit(order[..n], deal[b := less], known, default);
      split := earlier + [b];
      assert split[..n] == earlier;
      OneMoreDealt(order, split, deal, b, less, known, default);
    }
  }

  lemma EmptyDeal(deal: seq<seq<string>>, b: nat)
    requires Together(deal) == multiset{} && b < |deal|
    ensures deal[b] == []
  {
    if deal[b] != [] { BelongsTogether(deal, b, deal[b][0]); }
  }

  lemma OneMoreDealt(order: seq<File>, split: seq<nat>, deal: seq<seq<string>>, b: nat, less: seq<string>,
                     known: map<string, real>, default: real)
    requires |split| == |order| > 0 && b < |deal| && split[|order| - 1] == b
    requires var n := |order| - 1; order[n].weight == Takes(order[n].name, known, default)
    requires var n := |order| - 1;
      && Loads(order[..n], split[..n], deal[b := less], known, default)
      && Duration(deal[b], known, default) == Duration(less, known, default) + Takes(order[n].name, known, default)
    ensures Loads(order, split, deal, known, default)
  {
    hide Duration, Takes;
    var n := |order| - 1;
    assert Weights(order)[..n] == Weights(order[..n]);
    forall c | 0 <= c < |deal| ensures Load(Weights(order), split, c) == Duration(deal[c], known, default) {
      assert deal[b := less][c] == if c == b then less else deal[c];
    }
  }

  lemma NamesOfCons(x: File, s: seq<File>)
    ensures multiset(Names([x] + s)) == multiset(Names(s)) + multiset{x.name}
  {
    assert Names([x] + s) == [x.name] + Names(s);
  }

  lemma {:induction false} NamesOfInsert(x: File, s: seq<File>)
    ensures multiset(Names(Insert(x, s, Earlier))) == multiset(Names(s)) + multiset{x.name}
  {
    hide Names, Earlier;
    if s == [] {
      NamesOfCons(x, s);
      assert [x] + s == [x];
    } else if Earlier(x, s[0]) {
      NamesOfCons(x, s);
    } else {
      NamesOfInsert(x, s[1..]);
      NamesOfCons(s[0], Insert(x, s[1..], Earlier));
      NamesOfCons(s[0], s[1..]);
      assert [s[0]] + s[1..] == s;
    }
  }

  lemma SortedLast(files: seq<File>)
    requires files != []
    ensures Sorted(files, Earlier) == Insert(files[|files| - 1], Sorted(files[..|files| - 1], Earlier), Earlier)
  {
  }

  lemma {:induction false} NamesOfSorted(files: seq<File>)
    ensures multiset(Names(Sorted(files, Earlier))) == multiset(Names(files))
  {
    if files == [] {
      assert Sorted(files, Earlier) == files;
    } else {
      hide *;
      var most, last := files[..|files| - 1], files[|files| - 1];
      NamesOfSorted(most);
      SortedLast(files);
      NamesOfInsert(last, Sorted(most, Earlier));
      NamesOfSnoc(most, last);
      assert most + [last] == files;
    }
  }

  ghost function FilesBelow(names: seq<string>, known: map<string, real>, default: real, count: nat, m: nat): multiset<string>
    requires count >= 1
  {
    if m == 0 then multiset{}
    else FilesBelow(names, known, default, count, m - 1) + multiset(FilesOf(names, known, default, count, m - 1))
  }

  lemma {:induction false} BelowIsPicked(names: seq<string>, known: map<string, real>, default: real, count: nat, m: nat)
    requires count >= 1
    ensures var order := OrderOf(names, known, default);
      FilesBelow(names, known, default, count, m) == PickedBelow(order, Greedy(Weights(order), count), m)
  {
    hide Picked, Greedy, Sorted;
    if m > 0 {
      BelowIsPicked(names, known, default, count, m - 1);
      var order := OrderOf(names, known, default);
      SortedPermutes(Picked(order, Greedy(Weights(order), count), m - 1), NameLeq);
    }
  }

  /** Over all shard numbers, every test file runs exactly once. */
  lemma EveryFileRunsOnce(names: seq<string>, known: map<string, real>, default: real, count: nat)
    requires count >= 1
    ensures FilesBelow(names, known, default, count, count) == multiset(names)
  {
    var order := OrderOf(names, known, default);
    BelowIsPicked(names, known, default, count, count);
    ShardsPartition(order, Greedy(Weights(order), count), count);
    OrderIsFromTable(names, known, default);
  }

  lemma {:induction false} TakesAreNonNegative(order: seq<File>, known: map<string, real>, default: real)
    requires FromTable(order, known, default) && 0.0 <= default && forall n | n in known :: 0.0 <= known[n]
    ensures NonNegative(Weights(order))
  {
  }

  /** With durations of the table, no shard takes more than (4/3 - 1/(3 count))
      times the slowest shard of any other way to deal the files. */
  lemma ShardsAreBalanced(names: seq<string>, known: map<string, real>, default: real, count: nat, b: nat,
                          deal: seq<seq<string>>, T: real)
    requires b < count && 0.0 <= default && forall n | n in known :: 0.0 <= known[n]
    requires |deal| == count && Deals(deal, names, known, default, T)
    ensures WithinThirds(count, Duration(FilesOf(names, known, default, count, b), known, default), T)
  {
    hide Load, Greedy, Duration, Takes, Picked, FilesOf, Names, Together;
    var order := OrderOf(names, known, default);
    OrderIsFromTable(names, known, default);
    SortedIsLongestFirst(Weighed(names, known, default));
    var other := DealIsASplit(order, deal, known, default);
    TakesAreNonNegative(order, known, default);
    DealIsWithin(order, other, deal, known, default, T);
    FilesTakeTheLoad(names, known, default, count, b);
    hide *;
    FourThirdsOfAnySplit(Weights(order), count, b, other, T);
  }

  lemma DealIsWithin(order: seq<File>, other: seq<nat>, deal: seq<seq<string>>, known: map<string, real>, default: real, T: real)
    requires Split(other, |order|, |deal|) && Loads(order, other, deal, known, default)
    requires forall b | 0 <= b < |deal| :: Duration(deal[b], known, default) <= T
    ensures Within(Weights(order), other, |deal|, T)
  {
    hide Load, Duration;
  }

  /** What a shard's files take is its load in the greedy split. */
  lemma FilesTakeTheLoad(names: seq<string>, known: map<string, real>, default: real, count: nat, b: nat)
    requires b < count
    ensures var w := Weights(OrderOf(names, known, default));
      Duration(FilesOf(names, known, default, count, b), known, default) == Load(w, Greedy(w, count), b)
  {
    hide Load, Greedy, Duration, Takes, Picked, Names, OrderOf;
    var order := OrderOf(names, known, default);
    var split := Greedy(Weights(order), count);
    OrderIsFromTable(names, known, default);
    LoadIsDuration(order, split, b, known, default);
    SortedPermutes(Picked(order, split, b), NameLeq);
    SameDuration(FilesOf(names, known, default, count, b), Picked(order, split, b), known, default);
  }

  /** Files of one weight are dealt in the order of their names. */
  lemma TiesGoByName(names: seq<string>, known: map<string, real>, default: real, i: nat, j: nat)
    requires i < j < |OrderOf(names, known, default)|
    ensures var order := OrderOf(names, known, default);
      && (Takes(order[i].name, known, default) > Takes(order[j].name, known, default)
          || (Takes(order[i].name, known, default) == Takes(order[j].name, known, default) && NameLeq(order[i].name, order[j].name)))
  {
    OrderIsFromTable(names, known, default);
    EarlierOrders();
    SortedIsInOrder(Weighed(names, known, default), Earlier);
  }

  lemma EarlierOrders()
    ensures Orders(Earlier)
  {
    forall a: File, b: File ensures Earlier(a, b) || Earlier(b, a) { NamesCompare(a.name, b.name); }
    forall a: File, b: File, c: File | Earlier(a, b) && Earlier(b, c) ensures Earlier(a, c) {
      if a.weight == b.weight == c.weight { NamesChain(a.name, b.name, c.name); }
    }
  }
}
