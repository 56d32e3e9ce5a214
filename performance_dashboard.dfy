/** The performance dashboard (src/app/influencers/dashboard/page.tsx): summary
    metrics over the influencer list (count, follower total, average engagement,
    active collaborations, records per platform) and the five records with the
    highest engagement, found by sorting the page's own list in place. */
module PerformanceDashboard {
  import opened Wrappers
  import opened Schema
  import Seqs

  // ---------------------------------------------------------------------------
  // Metrics
  // ---------------------------------------------------------------------------

  /** `inf.followers || 0`: a missing follower count counts as 0. */
  function FollowersOrZero(inf: Influencer): int
  {
    if inf.followers.Some? then inf.followers.value else 0
  }

  /** `inf.engagement_rate || 0`: a missing engagement rate counts as 0. */
  function EngagementOrZero(inf: Influencer): real
  {
    if inf.engagement_rate.Some? then inf.engagement_rate.value else 0.0
  }

  /** `totalFollowers`: the sum of the follower counts. */
  function TotalFollowers(s: seq<Influencer>): int
  {
    Seqs.Sum(s, FollowersOrZero)
  }

  /** Adding a record adds its follower count, and a record without one adds nothing. */
  lemma TotalFollowersAppend(s: seq<Influencer>, inf: Influencer)
    ensures TotalFollowers(s + [inf]) == TotalFollowers(s) + FollowersOrZero(inf)
    ensures inf.followers.None? ==> TotalFollowers(s + [inf]) == TotalFollowers(s)
  {
    Seqs.SumAppend(s, [inf], FollowersOrZero);
  }

  /** With no negative counts the total is at least each record's count. */
  lemma {:induction false} TotalFollowersBounds(s: seq<Influencer>)
    requires forall i :: 0 <= i < |s| ==> FollowersOrZero(s[i]) >= 0
    ensures TotalFollowers(s) >= 0
    ensures forall i :: 0 <= i < |s| ==> FollowersOrZero(s[i]) <= TotalFollowers(s)
  {
    if s != [] {
      TotalFollowersBounds(s[1..]);
      assert forall i :: 1 <= i < |s| ==> s[i] == s[1..][i - 1];
    }
  }

  /** The sum of the engagement rates. */
  function EngagementSum(s: seq<Influencer>): real
  {
    Seqs.SumReal(s, EngagementOrZero)
  }

  /** `avgEngagement`: 0 for an empty list, otherwise the engagement sum shared out
      over the records. */
  function AvgEngagement(s: seq<Influencer>): (r: real)
    ensures s == [] ==> r == 0.0
    ensures s != [] ==> r * (|s| as real) == EngagementSum(s)
  {
    if |s| > 0 then EngagementSum(s) / (|s| as real) else 0.0
  }

  /** Rates between `lo` and `hi` average out between `lo` and `hi`. */
  lemma AvgEngagementBounds(s: seq<Influencer>, lo: real, hi: real)
    requires s != []
    requires forall i :: 0 <= i < |s| ==> lo <= EngagementOrZero(s[i]) <= hi
    ensures lo <= AvgEngagement(s) <= hi
  {
    EngagementSumBounds(s, lo, hi);
  }

  lemma {:induction false} EngagementSumBounds(s: seq<Influencer>, lo: real, hi: real)
    requires forall i :: 0 <= i < |s| ==> lo <= EngagementOrZero(s[i]) <= hi
    ensures lo * (|s| as real) <= EngagementSum(s) <= hi * (|s| as real)
  {
    if s != [] {
      EngagementSumBounds(s[1..], lo, hi);
    }
  }

  /** The statuses counted as an active collaboration. */
  predicate IsActive(inf: Influencer)
  {
    inf.collaboration_status in ["interested", "negotiating", "confirmed"]
  }

  /** `activeCollaborations`: the records whose status is interested, negotiating or
      confirmed. */
  function ActiveCollaborations(s: seq<Influencer>): (r: nat)
    ensures r <= |s|
  {
    |Seqs.Filter(s, IsActive)|
  }

  /** Adding a record adds one exactly when its status is an active one; pending,
      contacted and declined records, like any other status, add nothing. */
  lemma ActiveCollaborationsAppend(s: seq<Influencer>, inf: Influencer)
    ensures ActiveCollaborations(s + [inf]) ==
            ActiveCollaborations(s) + if inf.collaboration_status in ["interested", "negotiating", "confirmed"] then 1 else 0
    ensures inf.collaboration_status in ["pending", "contacted", "declined"] ==>
            ActiveCollaborations(s + [inf]) == ActiveCollaborations(s)
  {
    Seqs.FilterAppend(s, [inf], IsActive);
  }

  /** A list with no active status has no active collaboration. */
  lemma ActiveCollaborationsNone(s: seq<Influencer>)
    requires forall i :: 0 <= i < |s| ==> s[i].collaboration_status in ["pending", "contacted", "declined"]
    ensures ActiveCollaborations(s) == 0
  {
    Seqs.FilterNonePass(s, IsActive);
  }

  // ---------------------------------------------------------------------------
  // Platform distribution (platformStats)
  // ---------------------------------------------------------------------------

  /** `acc[p] = (acc[p] || 0) + 1`. */
  function Bump(acc: map<string, nat>, p: string): map<string, nat>
  {
    acc[p := (if p in acc then acc[p] else 0) + 1]
  }

  /** The `reduce` over the records, starting from the accumulator `acc`. */
  function CountPlatforms(s: seq<Influencer>, acc: map<string, nat>): map<string, nat>
    decreases |s|
  {
    if s == [] then acc else CountPlatforms(s[1..], Bump(acc, s[0].platform))
  }

  /** `platformStats`: the number of records on each platform. */
  function PlatformStats(s: seq<Influencer>): map<string, nat>
  {
    CountPlatforms(s, map[])
  }

  /** The number of records on platform `p`. */
  function PlatformCount(s: seq<Influencer>, p: string): nat
  {
    |Seqs.Filter(s, (inf: Influencer) => inf.platform == p)|
  }

  /** The platforms that occur in the list. */
  function Platforms(s: seq<Influencer>): set<string>
  {
    set i | 0 <= i < |s| :: s[i].platform
  }

  /** What the fold adds to any accumulator: the platforms of the records as keys, and
      to each the number of its records. */
  lemma CountPlatformsFold(s: seq<Influencer>, acc: map<string, nat>)
    ensures CountPlatforms(s, acc).Keys == acc.Keys + Platforms(s)
    ensures forall p :: p in CountPlatforms(s, acc) ==>
              CountPlatforms(s, acc)[p] == (if p in acc then acc[p] else 0) + PlatformCount(s, p)
  {
    CountPlatformsKeys(s, acc);
    CountPlatformsValues(s, acc);
  }

  lemma {:induction false} CountPlatformsKeys(s: seq<Influencer>, acc: map<string, nat>)
    ensures CountPlatforms(s, acc).Keys == acc.Keys + Platforms(s)
    decreases |s|
  {
    if s != [] {
      CountPlatformsKeys(s[1..], Bump(acc, s[0].platform));
      PlatformsCons(s);
    }
  }

  lemma {:induction false} CountPlatformsValues(s: seq<Influencer>, acc: map<string, nat>)
    ensures forall p :: p in CountPlatforms(s, acc) ==>
              CountPlatforms(s, acc)[p] == (if p in acc then acc[p] else 0) + PlatformCount(s, p)
    decreases |s|
  {
    if s != [] {
      var next := Bump(acc, s[0].platform);
      CountPlatformsValues(s[1..], next);
      assert CountPlatforms(s, acc) == CountPlatforms(s[1..], next);
      forall p | p in CountPlatforms(s, acc)
        ensures CountPlatforms(s, acc)[p] == (if p in acc then acc[p] else 0) + PlatformCount(s, p)
      {
        PlatformCountCons(s, p);
      }
    }
  }

  lemma PlatformCountCons(s: seq<Influencer>, p: string)
    requires s != []
    ensures PlatformCount(s, p) == (if s[0].platform == p then 1 else 0) + PlatformCount(s[1..], p)
  {
  }

  lemma PlatformsCons(s: seq<Influencer>)
    requires s != []
    ensures Platforms(s) == {s[0].platform} + Platforms(s[1..])
  {
    forall q | q in Platforms(s) ensures q in {s[0].platform} + Platforms(s[1..]) {
      var i :| 0 <= i < |s| && s[i].platform == q;
      if i > 0 { assert s[1..][i - 1] == s[i]; }
    }
    forall q | q in Platforms(s[1..]) ensures q in Platforms(s) {
      var i :| 0 <= i < |s[1..]| && s[1..][i].platform == q;
      assert s[i + 1] == s[1..][i];
    }
  }

  /** The keys are exactly the platforms present, each with its number of records. */
  lemma PlatformStatsCounts(s: seq<Influencer>)
    ensures PlatformStats(s).Keys == Platforms(s)
    ensures forall p :: p in PlatformStats(s) ==> PlatformStats(s)[p] == PlatformCount(s, p) > 0
  {
    CountPlatformsFold(s, map[]);
    forall p | p in PlatformStats(s) ensures PlatformCount(s, p) > 0 {
      var i :| 0 <= i < |s| && s[i].platform == p;
      Seqs.FilterMembership(s, (inf: Influencer) => inf.platform == p, s[i]);
    }
  }

  /** The sum of a map's values. */
  ghost function MapSum(m: map<string, nat>): nat
    decreases |m.Keys|
  {
    if m == map[] then 0
    else
      var k :| k in m;
      m[k] + MapSum(m - {k})
  }

  /** Any key can be taken out first. */
  lemma {:induction false} MapSumRemove(m: map<string, nat>, k: string)
    requires k in m
    ensures MapSum(m) == m[k] + MapSum(m - {k})
    decreases |m.Keys|
  {
    var j :| j in m && MapSum(m) == m[j] + MapSum(m - {j});
    if j != k {
      MapSumRemove(m - {j}, k);
      MapSumRemove(m - {k}, j);
      assert m - {j} - {k} == m - {k} - {j};
    }
  }

  lemma MapSumBump(acc: map<string, nat>, p: string)
    ensures MapSum(Bump(acc, p)) == MapSum(acc) + 1
  {
    var b := Bump(acc, p);
    MapSumRemove(b, p);
    assert b - {p} == acc - {p};
    if p in acc {
      MapSumRemove(acc, p);
    } else {
      assert acc - {p} == acc;
    }
  }

  lemma {:induction false} CountPlatformsSum(s: seq<Influencer>, acc: map<string, nat>)
    ensures MapSum(CountPlatforms(s, acc)) == MapSum(acc) + |s|
    decreases |s|
  {
    if s != [] {
      MapSumBump(acc, s[0].platform);
      CountPlatformsSum(s[1..], Bump(acc, s[0].platform));
    }
  }

  /** Every record is counted once: the counts add up to the number of records. */
  lemma PlatformStatsSum(s: seq<Influencer>)
    ensures MapSum(PlatformStats(s)) == |s|
  {
    CountPlatformsSum(s, map[]);
    assert MapSum(map[]) == 0;
  }

  // ---------------------------------------------------------------------------
  // Ranking (topPerformers)
  // ---------------------------------------------------------------------------

  /** The sort key. The comparator `(b.engagement_rate || 0) - (a.engagement_rate || 0)`
      puts higher rates first and keeps equal rates in their order (the sort is
      stable). */
  function Key(inf: Influencer): real
  {
    EngagementOrZero(inf)
  }

  /** Non-increasing in the key. */
  predicate SortedByEngagement(s: seq<Influencer>)
  {
    forall i, j :: 0 <= i < j < |s| ==> Key(s[i]) >= Key(s[j])
  }

  /** Places `x` after the trailing records of `t` whose key is at least its own,
      looking from the end as an insertion sort does. */
  function Insert(t: seq<Influencer>, x: Influencer): (r: seq<Influencer>)
    ensures |r| == |t| + 1
    ensures multiset(r) == multiset(t) + multiset{x}
    decreases |t|
  {
    if t == [] || Key(t[|t| - 1]) >= Key(x) then t + [x]
    else
      assert t == t[..|t| - 1] + [t[|t| - 1]];
      Insert(t[..|t| - 1], x) + [t[|t| - 1]]
  }

  /** The stable sort by decreasing engagement: each record in turn is inserted into
      the sorted records before it. */
  function SortByEngagement(s: seq<Influencer>): (r: seq<Influencer>)
    ensures |r| == |s|
    ensures multiset(r) == multiset(s)
    decreases |s|
  {
    if s == [] then []
    else
      var front := s[..|s| - 1];
      assert s == front + [s[|s| - 1]];
      Insert(SortByEngagement(front), s[|s| - 1])
  }

  /** Inserting into a sorted list keeps it sorted. */
  lemma {:induction false} InsertSorted(t: seq<Influencer>, x: Influencer)
    requires SortedByEngagement(t)
    ensures SortedByEngagement(Insert(t, x))
    decreases |t|
  {
    if t != [] && Key(t[|t| - 1]) < Key(x) {
      var front := t[..|t| - 1];
      InsertSorted(front, x);
      var r := Insert(front, x);
      InsertBounded(front, x, Key(t[|t| - 1]));
    }
  }

  /** Every record of `Insert(t, x)` has a key of at least `k` when `x` and the records
      of `t` do. */
  lemma {:induction false} InsertBounded(t: seq<Influencer>, x: Influencer, k: real)
    requires Key(x) >= k && forall i :: 0 <= i < |t| ==> Key(t[i]) >= k
    ensures forall i :: 0 <= i < |Insert(t, x)| ==> Key(Insert(t, x)[i]) >= k
  {
    var r := Insert(t, x);
    forall i | 0 <= i < |r| ensures Key(r[i]) >= k {
      assert r[i] in multiset(r);
      assert r[i] in multiset(t) || r[i] == x;
    }
  }

  /** The result is sorted by decreasing engagement. */
  lemma {:induction false} SortByEngagementSorted(s: seq<Influencer>)
    ensures SortedByEngagement(SortByEngagement(s))
    decreases |s|
  {
    if s != [] {
      SortByEngagementSorted(s[..|s| - 1]);
      InsertSorted(SortByEngagement(s[..|s| - 1]), s[|s| - 1]);
    }
  }

  /** Records of one engagement rate. */
  function WithKey(s: seq<Influencer>, k: real): seq<Influencer>
  {
    Seqs.Filter(s, (inf: Influencer) => Key(inf) == k)
  }

  lemma WithKeyAppend(a: seq<Influencer>, b: seq<Influencer>, k: real)
    ensures WithKey(a + b, k) == WithKey(a, k) + WithKey(b, k)
  {
    Seqs.FilterAppend(a, b, (inf: Influencer) => Key(inf) == k);
  }

  /** Insertion only moves `x` past records with a different key. */
  lemma {:induction false} InsertStable(t: seq<Influencer>, x: Influencer, k: real)
    ensures WithKey(Insert(t, x), k) == WithKey(t, k) + WithKey([x], k)
    decreases |t|
  {
    if t == [] || Key(t[|t| - 1]) >= Key(x) {
      WithKeyAppend(t, [x], k);
    } else {
      var front := t[..|t| - 1];
      var last := t[|t| - 1];
      var ins := Insert(front, x);
      assert Insert(t, x) == ins + [last];
      assert t == front + [last];
      InsertStable(front, x, k);
      WithKeyAppend(ins, [last], k);
      WithKeyAppend(front, [last], k);
      WithKeySwap(x, last, k);
    }
  }

  /** Two records that do not both have key `k` can trade places as far as the records
      with key `k` are concerned. */
  lemma WithKeySwap(x: Influencer, y: Influencer, k: real)
    requires Key(x) != Key(y)
    ensures WithKey([x], k) + WithKey([y], k) == WithKey([y], k) + WithKey([x], k)
  {
    if Key(x) == k {
      assert WithKey([y], k) == [];
    } else {
      assert WithKey([x], k) == [];
    }
  }

  /** The sort is stable: the records of each engagement rate keep their original order. */
  lemma {:induction false} SortByEngagementStable(s: seq<Influencer>, k: real)
    ensures WithKey(SortByEngagement(s), k) == WithKey(s, k)
    decreases |s|
  {
    if s != [] {
      var front := s[..|s| - 1];
      var last := s[|s| - 1];
      SortByEngagementStable(front, k);
      InsertStable(SortByEngagement(front), last, k);
      assert s == front + [last];
      Seqs.FilterAppend(front, [last], (inf: Influencer) => Key(inf) == k);
    }
  }

  /** A list that is already sorted is left as it is. */
  lemma {:induction false} SortByEngagementOfSorted(s: seq<Influencer>)
    requires SortedByEngagement(s)
    ensures SortByEngagement(s) == s
    decreases |s|
  {
    if s != [] {
      var front, last := s[..|s| - 1], s[|s| - 1];
      assert s == front + [last];
      assert SortedByEngagement(front) by {
        forall i, j | 0 <= i < j < |front| ensures Key(front[i]) >= Key(front[j]) {
          assert front[i] == s[i] && front[j] == s[j];
        }
      }
      SortByEngagementOfSorted(front);
      assert |front| > 0 ==> Key(front[|front| - 1]) >= Key(last);
      assert SortByEngagement(s) == Insert(front, last);
    }
  }

  function Min(a: nat, b: nat): nat
  {
    if a <= b then a else b
  }

  /** `topPerformers`: the first five records of the sorted list (all of them when
      there are fewer). */
  function TopPerformers(s: seq<Influencer>): (r: seq<Influencer>)
    ensures |r| == Min(5, |s|)
  {
    SortByEngagement(s)[..Min(5, |s|)]
  }

  /** The top performers are min(5, n) records of the list, in non-increasing order of
      engagement, and no record left out has a higher rate than any record kept. */
  lemma TopPerformersSpec(s: seq<Influencer>)
    ensures |TopPerformers(s)| == Min(5, |s|)
    ensures multiset(TopPerformers(s)) <= multiset(s)
    ensures SortedByEngagement(TopPerformers(s))
    ensures forall x, i :: x in multiset(s) - multiset(TopPerformers(s)) && 0 <= i < |TopPerformers(s)| ==>
              Key(x) <= Key(TopPerformers(s)[i])
  {
    var r := SortByEngagement(s);
    SortByEngagementSorted(s);
    PrefixOfSorted(r, Min(5, |s|));
  }

  /** In a sorted list, a prefix is sorted and every record after it has a key at most
      that of each record in it. */
  lemma PrefixOfSorted(r: seq<Influencer>, n: nat)
    requires n <= |r| && SortedByEngagement(r)
    ensures multiset(r[..n]) <= multiset(r)
    ensures SortedByEngagement(r[..n])
    ensures forall x, i :: x in multiset(r) - multiset(r[..n]) && 0 <= i < n ==> Key(x) <= Key(r[i])
  {
    var t := r[..n];
    assert r == t + r[n..];
    assert multiset(r) == multiset(t) + multiset(r[n..]);
    forall x, i | x in multiset(r) - multiset(t) && 0 <= i < n ensures Key(x) <= Key(r[i]) {
      assert x in multiset(r[n..]);
      var j :| 0 <= j < |r[n..]| && r[n..][j] == x;
      assert r[n + j] == x;
    }
  }

  /** All five metrics and the ranking over a list. */
  datatype Metrics = Metrics(
    totalInfluencers: nat,
    totalFollowers: int,
    avgEngagement: real,
    activeCollaborations: nat,
    platformStats: map<string, nat>,
    topPerformers: seq<Influencer>)

  function MetricsOf(s: seq<Influencer>): Metrics
  {
    Metrics(|s|, TotalFollowers(s), AvgEngagement(s), ActiveCollaborations(s),
            PlatformStats(s), TopPerformers(s))
  }

  /** The metrics depend only on which records the list holds, not on their order:
      any reordering, in particular the in-place sort, leaves the counts, sums, average
      and platform counts as they were. */
  lemma MetricsOfPermutation(a: seq<Influencer>, b: seq<Influencer>)
    requires multiset(a) == multiset(b)
    ensures |a| == |b|
    ensures TotalFollowers(a) == TotalFollowers(b)
    ensures AvgEngagement(a) == AvgEngagement(b)
    ensures ActiveCollaborations(a) == ActiveCollaborations(b)
    ensures PlatformStats(a) == PlatformStats(b)
  {
    assert |a| == |multiset(a)| == |multiset(b)| == |b|;
    Seqs.SumPermutation(a, b, FollowersOrZero);
    Seqs.SumRealPermutation(a, b, EngagementOrZero);
    Seqs.FilterCountPermutation(a, b, IsActive);
    PlatformStatsPermutation(a, b);
  }

  lemma PlatformStatsPermutation(a: seq<Influencer>, b: seq<Influencer>)
    requires multiset(a) == multiset(b)
    ensures PlatformStats(a) == PlatformStats(b)
  {
    PlatformStatsCounts(a);
    PlatformStatsCounts(b);
    PlatformsPermutation(a, b);
    forall p | p in PlatformStats(a) ensures PlatformStats(a)[p] == PlatformStats(b)[p] {
      Seqs.FilterCountPermutation(a, b, (inf: Influencer) => inf.platform == p);
    }
  }

  lemma PlatformsPermutation(a: seq<Influencer>, b: seq<Influencer>)
    requires multiset(a) == multiset(b)
    ensures Platforms(a) == Platforms(b)
  {
    forall q | q in Platforms(a) ensures q in Platforms(b) {
      var i :| 0 <= i < |a| && a[i].platform == q;
      assert a[i] in multiset(b);
    }
    forall q | q in Platforms(b) ensures q in Platforms(a) {
      var i :| 0 <= i < |b| && b[i].platform == q;
      assert b[i] in multiset(a);
    }
  }

  /** Rendering again after the sort shows the same metrics and the same top five. */
  lemma MetricsAfterSort(s: seq<Influencer>)
    ensures MetricsOf(SortByEngagement(s)) == MetricsOf(s)
  {
    var r := SortByEngagement(s);
    MetricsOfPermutation(r, s);
    SortByEngagementSorted(s);
    SortByEngagementOfSorted(r);
  }

  // ---------------------------------------------------------------------------
  // The page (InfluencerDashboard)
  // ---------------------------------------------------------------------------

  /** One step of the backward scan: when the record before position `j` has a smaller
      key than `x`, `x` goes before it. */
  lemma InsertStep(t: seq<Influencer>, x: Influencer, j: nat)
    requires 0 < j <= |t| && Key(t[j - 1]) < Key(x)
    ensures Insert(t[..j], x) + t[j..] == Insert(t[..j - 1], x) + t[j - 1..]
  {
    assert t[..j][..j - 1] == t[..j - 1];
    assert t[j - 1..] == [t[j - 1]] + t[j..];
  }

  /** Where the backward scan stops, `x` goes right there. */
  lemma InsertStop(t: seq<Influencer>, x: Influencer, j: nat)
    requires j <= |t| && (j == 0 || Key(t[j - 1]) >= Key(x))
    ensures Insert(t[..j], x) == t[..j] + [x]
  {
  }

  /** Sorting one more record inserts it into the sorted prefix. */
  lemma SortByEngagementSnoc(s: seq<Influencer>, i: nat)
    requires i < |s|
    ensures SortByEngagement(s[..i + 1]) == Insert(SortByEngagement(s[..i]), s[i])
  {
    assert s[..i + 1][..i] == s[..i];
  }

  /** Sorts `a` by decreasing engagement, stably, in place (insertion sort): the
      `influencers.sort(...)` call that reorders the page's own list. */
  method SortInPlace(a: array<Influencer>)
    modifies a
    ensures a[..] == SortByEngagement(old(a[..]))
  {
    ghost var s := a[..];
    var i := 0;
    while i < a.Length
      invariant 0 <= i <= a.Length
      invariant a[..] == SortByEngagement(s[..i]) + s[i..]
    {
      SortedPrefixSplit(s, a[..], i);
      InsertInPlace(a, i);
      SortByEngagementSnoc(s, i);
      i := i + 1;
    }
    assert s[..i] == s && s[i..] == [];
  }

  /** The array during the sort: its sorted prefix, the next record, the rest. */
  lemma SortedPrefixSplit(s: seq<Influencer>, cur: seq<Influencer>, i: nat)
    requires i < |s| && cur == SortByEngagement(s[..i]) + s[i..]
    ensures cur[..i] == SortByEngagement(s[..i]) && cur[i] == s[i] && cur[i + 1..] == s[i + 1..]
  {
  }

  /** Moves `a[i]` backwards into the sorted records before it, shifting the records
      with a smaller key one place up. */
  method InsertInPlace(a: array<Influencer>, i: nat)
    requires i < a.Length
    modifies a
    ensures a[..] == Insert(old(a[..])[..i], old(a[..])[i]) + old(a[..])[i + 1..]
  {
    var x := a[i];
    ghost var t := a[..][..i];
    ghost var rest := a[..][i + 1..];
    GapAtEnd(a[..], i);
    var j := i;
    while j > 0 && Key(a[j - 1]) < Key(x)
      invariant 0 <= j <= |t| == i
      invariant a[..] == Gap(t, j, a[j], rest)
      invariant Insert(t, x) == Insert(t[..j], x) + t[j..]
    {
      InsertStep(t, x, j);
      ghost var before := a[..];
      ShiftStep(t, rest, before[j], j);
      a[j] := a[j - 1];
      assert a[..] == before[j := t[j - 1]];
      j := j - 1;
    }
    ghost var before := a[..];
    a[j] := x;
    assert a[..] == before[j := x];
    ShiftDone(t, rest, before[j], x, j);
    InsertStop(t, x, j);
  }

  /** The array during the backward scan: the records before the gap at `j`, the
      gap holding `v`, the remaining sorted records shifted up, then the unsorted rest. */
  function Gap(t: seq<Influencer>, j: nat, v: Influencer, rest: seq<Influencer>): (g: seq<Influencer>)
    requires j <= |t|
    ensures |g| == |t| + 1 + |rest| && g[j] == v
  {
    t[..j] + [v] + t[j..] + rest
  }

  /** Before the scan the gap is at position `i`, holding the record being inserted. */
  lemma GapAtEnd(u: seq<Influencer>, i: nat)
    requires i < |u|
    ensures u == Gap(u[..i], i, u[i], u[i + 1..])
    ensures u[..i][..i] == u[..i] && u[..i][i..] == []
  {
    assert u[..i][..i] == u[..i] && u[..i][i..] == [];
    assert u == u[..i] + [u[i]] + u[i + 1..];
  }

  /** Copying the record before the gap into the gap moves the gap down one place. */
  lemma ShiftStep(t: seq<Influencer>, rest: seq<Influencer>, v: Influencer, j: nat)
    requires 0 < j <= |t|
    ensures Gap(t, j, v, rest)[j - 1] == t[j - 1]
    ensures Gap(t, j, v, rest)[j := t[j - 1]] == Gap(t, j - 1, t[j - 1], rest)
  {
    var u := Gap(t, j, v, rest);
    var w := Gap(t, j - 1, t[j - 1], rest);
    forall k | 0 <= k < |u| ensures u[j := t[j - 1]][k] == w[k] {
      if k < j - 1 {
      } else if k == j - 1 || k == j {
      } else if k <= |t| {
        assert u[k] == t[k - 1];
        assert w[k] == t[k - 1];
      } else {
        assert u[k] == rest[k - |t| - 1];
      }
    }
  }

  /** Filling the gap with `x` gives the records before it, `x`, then the rest. */
  lemma ShiftDone(t: seq<Influencer>, rest: seq<Influencer>, v: Influencer, x: Influencer, j: nat)
    requires j <= |t|
    ensures Gap(t, j, v, rest)[j := x] == t[..j] + [x] + t[j..] + rest
  {
    var u := Gap(t, j, v, rest);
    var w := Gap(t, j, x, rest);
    forall k | 0 <= k < |u| ensures u[j := x][k] == w[k] {
      if k < j {
      } else if k == j {
      } else if k <= |t| {
        assert u[k] == t[k - 1];
      } else {
        assert u[k] == rest[k - |t| - 1];
      }
    }
  }

  /** The page's state: the list, whose array `sort` reorders in place, and the
      loading flag. */
  class Dashboard {
    var influencers: array<Influencer>
    var loading: bool

    constructor()
      ensures influencers.Length == 0 && loading
    {
      influencers := new Influencer[0];
      loading := true;
    }

    /** `fetchInfluencers`: rows replace the list (`data || []`); a failure is only
        logged and keeps the list. Either way loading ends. */
    method FetchInfluencers(response: Fetch<Influencer>)
      modifies this
      ensures !loading
      ensures response.Rows? ==> fresh(influencers) && influencers[..] == RowsOrEmpty(response.data)
      ensures response.Thrown? ==> influencers == old(influencers)
    {
      if response.Rows? {
        var rows := RowsOrEmpty(response.data);
        influencers := new Influencer[|rows|](i requires 0 <= i < |rows| => rows[i]);
      }
      loading := false;
    }

    /** One render: the metrics are computed from the list as it stands, then the
        list is sorted in place and its first five records are the top performers. */
    method Render() returns (m: Metrics)
      modifies influencers
      ensures m == MetricsOf(old(influencers[..]))
      ensures influencers[..] == SortByEngagement(old(influencers[..]))
    {
      var s := influencers[..];
      var totalInfluencers := influencers.Length;
      var totalFollowers := TotalFollowers(s);
      var avgEngagement := AvgEngagement(s);
      var activeCollaborations := ActiveCollaborations(s);
      var platformStats := PlatformStats(s);
      SortInPlace(influencers);
      var topPerformers := influencers[..Min(5, influencers.Length)];
      m := Metrics(totalInfluencers, totalFollowers, avgEngagement, activeCollaborations,
                   platformStats, topPerformers);
    }
  }
}
