/**
 The minute buckets of internal/stats/stats.go and the report of internal/stats/load_stats.go.
 A bucket's key is the moment its minute starts; moments are counted in nanoseconds.
 */
module Stats {
  datatype Metric = Reads | Writes | Begins | Commits | Rollbacks | Errors | HttpRequests

  datatype Counts = Counts(
    readCount: int, writeCount: int, beginCount: int, commitCount: int, rollbackCount: int, errorCount: int,
        httpCount: int)
  {
    function Get(m: Metric): int {
      match m
      case Reads => readCount
      case Writes => writeCount
      case Begins => beginCount
      case Commits => commitCount
      case Rollbacks => rollbackCount
      case Errors => errorCount
      case HttpRequests => httpCount
    }

    function Add(m: Metric): (c: Counts)
      ensures forall n :: c.Get(n) == Get(n) + if n == m then 1 else 0
    {
      match m
      case Reads => this.(readCount := readCount + 1)
      case Writes => this.(writeCount := writeCount + 1)
      case Begins => this.(beginCount := beginCount + 1)
      case Commits => this.(commitCount := commitCount + 1)
      case Rollbacks => this.(rollbackCount := rollbackCount + 1)
      case Errors => this.(errorCount := errorCount + 1)
      case HttpRequests => this.(httpCount := httpCount + 1)
    }

    function Plus(d: Counts): (c: Counts)
      ensures forall n :: c.Get(n) == Get(n) + d.Get(n)
    {
      Counts(readCount + d.readCount, writeCount + d.writeCount, beginCount + d.beginCount, commitCount + d.commitCount,
             rollbackCount + d.rollbackCount, errorCount + d.errorCount, httpCount + d.httpCount)
    }
  }

  const ZERO: Counts := Counts(0, 0, 0, 0, 0, 0, 0)

  const MINUTE: int := 60 * 1_000_000_000
  const DAY: int := 24 * 60 * MINUTE

  /** time.Truncate to the minute. */
  function MinuteOf(now: int): (k: int)
    ensures k <= now < k + 60_000_000_000 && k % 60_000_000_000 == 0
  {
    now - now % MINUTE
  }

  // ---- What is to be counted ----

  /** One increment: the bucket it went to and what it counts. */
  datatype Inc = Inc(minute: int, metric: Metric)

  ghost function CountIn(incs: seq<Inc>, minutes: set<int>, m: Metric): nat {
    if incs == [] then 0
    else
      CountIn(incs[..|incs| - 1], minutes, m) +
      if incs[|incs| - 1].minute in minutes && incs[|incs| - 1].metric == m then 1 else 0
  }

  ghost function CountOf(incs: seq<Inc>, m: Metric): nat {
    if incs == [] then 0
    else CountOf(incs[..|incs| - 1], m) + if incs[|incs| - 1].metric == m then 1 else 0
  }

  /** The increments that eviction leaves. */
  ghost function Kept(incs: seq<Inc>, cutoff: int): seq<Inc> {
    if incs == [] then []
    else Kept(incs[..|incs| - 1], cutoff) + if incs[|incs| - 1].minute >= cutoff then [incs[|incs| - 1]] else []
  }

  lemma {:induction false} CountOneMore(incs: seq<Inc>, minutes: set<int>, k: int, m: Metric)
    requires k !in minutes
    ensures CountIn(incs, minutes + {k}, m) == CountIn(incs, minutes, m) + CountIn(incs, {k}, m)
  {
    if incs != [] {
      CountOneMore(incs[..|incs| - 1], minutes, k, m);
    }
  }

  lemma {:induction false} CountNone(incs: seq<Inc>, m: Metric)
    ensures CountIn(incs, {}, m) == 0
  {
    if incs != [] {
      CountNone(incs[..|incs| - 1], m);
    }
  }

  lemma {:induction false} CountAll(incs: seq<Inc>, minutes: set<int>, m: Metric)
    requires forall inc | inc in incs :: inc.minute in minutes
    ensures CountIn(incs, minutes, m) == CountOf(incs, m)
  {
    if incs != [] {
      assert incs[|incs| - 1] in incs;
      CountAll(incs[..|incs| - 1], minutes, m);
    }
  }

  lemma CountAppend(incs: seq<Inc>, last: Inc, minutes: set<int>, m: Metric)
    ensures CountIn(incs + [last], minutes, m) ==
              CountIn(incs, minutes, m) + if last.minute in minutes && last.metric == m then 1 else 0
  {
    assert (incs + [last])[..|incs|] == incs;
  }

  lemma KeptAppend(incs: seq<Inc>, last: Inc, cutoff: int)
    ensures Kept(incs + [last], cutoff) ==
        if last.minute >= cutoff then Kept(incs, cutoff) + [last] else Kept(incs, cutoff)
  {
    assert (incs + [last])[..|incs|] == incs;
  }

  lemma {:induction false} CountKept(incs: seq<Inc>, cutoff: int, k: int, m: Metric)
    ensures CountIn(Kept(incs, cutoff), {k}, m) == if k >= cutoff then CountIn(incs, {k}, m) else 0
  {
    if incs != [] {
      var rest, last := incs[..|incs| - 1], incs[|incs| - 1];
      assert incs == rest + [last];
      CountKept(rest, cutoff, k, m);
      KeptAppend(rest, last, cutoff);
      CountAppend(rest, last, {k}, m);
      CountAppend(Kept(rest, cutoff), last, {k}, m);
      hide Kept, CountIn;
    } else {
      assert Kept(incs, cutoff) == [];
    }
  }

  lemma {:induction false} KeptAreYoung(incs: seq<Inc>, cutoff: int)
    ensures forall inc | inc in Kept(incs, cutoff) :: inc in incs && inc.minute >= cutoff
  {
    if incs != [] {
      KeptAreYoung(incs[..|incs| - 1], cutoff);
    }
  }

  lemma SomeElement(s: set<int>)
    requires s != {}
    ensures exists k :: k in s
  {
    assert (forall k :: k !in s) ==> s == {};
  }

  // ---- The report ----

  datatype Stat = Stat(minute: int, counts: Counts)

  datatype LoadedStats = LoadedStats(totals: Counts, stats: seq<Stat>, queuedBegins: int, queuedWrites: int,
      queuedHttpRequests: int)

  ghost function SumOf(stats: seq<Stat>, m: Metric): int {
    if stats == [] then 0 else SumOf(stats[..|stats| - 1], m) + stats[|stats| - 1].counts.Get(m)
  }

  predicate NewestFirst(stats: seq<Stat>) {
    forall i, j :: 0 <= i < j < |stats| ==> stats[i].minute > stats[j].minute
  }

  lemma {:induction false} SumSplit(a: seq<Stat>, b: seq<Stat>, m: Metric)
    ensures SumOf(a + b, m) == SumOf(a, m) + SumOf(b, m)
  {
    if b == [] {
      assert a + b == a;
    } else {
      assert (a + b)[..|a + b| - 1] == a + b[..|b| - 1];
      SumSplit(a, b[..|b| - 1], m);
    }
  }

  lemma SumInserted(a: seq<Stat>, s: Stat, b: seq<Stat>, m: Metric)
    ensures SumOf(a + [s] + b, m) == SumOf(a + b, m) + s.counts.Get(m)
  {
    SumSplit(a + [s], b, m);
    SumSplit(a, [s], m);
    SumSplit(a, b, m);
    assert [s][..0] == [];
  }

  lemma InsertedInOrder(stats: seq<Stat>, p: nat, s: Stat, r: seq<Stat>)
    requires NewestFirst(stats) && p <= |stats| && (forall i :: 0 <= i < p ==> stats[i].minute > s.minute)
    requires p < |stats| ==> s.minute > stats[p].minute
    requires |r| == |stats| + 1 && r[p] == s
    requires forall i :: 0 <= i < p ==> r[i] == stats[i]
    requires forall i :: p < i < |r| ==> r[i] == stats[i - 1]
    ensures NewestFirst(r)
  {
    forall i, j | 0 <= i < j < |r| ensures r[i].minute > r[j].minute {
      var a, b := if i < p then i else i - 1, if j < p then j else j - 1;
      if i == p {
        assert stats[p].minute >= stats[b].minute;
      } else if j == p {
      } else {
        assert stats[a].minute > stats[b].minute;
      }
    }
  }

  lemma InsertedOnce(a: seq<Stat>, s: Stat, b: seq<Stat>)
    ensures multiset(a + [s] + b) == multiset(a + b) + multiset{s}
  {
  }

  /** One step of the sort by minute, newest first. */
  method Insert(stats: seq<Stat>, s: Stat) returns (r: seq<Stat>)
    requires NewestFirst(stats) && forall i :: 0 <= i < |stats| ==> stats[i].minute != s.minute
    ensures NewestFirst(r) && multiset(r) == multiset(stats) + multiset{s}
    ensures forall m :: SumOf(r, m) == SumOf(stats, m) + s.counts.Get(m)
  {
    var p := 0;
    while p < |stats| && stats[p].minute > s.minute
      invariant 0 <= p <= |stats| && forall i :: 0 <= i < p ==> stats[i].minute > s.minute
    {
      p := p + 1;
    }
    var a, b := stats[..p], stats[p..];
    assert stats == a + b;
    r := a + [s] + b;
    InsertedInOrder(stats, p, s, r);
    InsertedOnce(a, s, b);
    hide NewestFirst;
    forall m ensures SumOf(r, m) == SumOf(stats, m) + s.counts.Get(m) {
      SumInserted(a, s, b, m);
    }
  }

  /** sort.Slice by minute; it needs no stability, since no two buckets share a minute. */
  method SortNewestFirst(stats: seq<Stat>) returns (sorted: seq<Stat>)
    requires forall i, j :: 0 <= i < j < |stats| ==> stats[i].minute != stats[j].minute
    ensures NewestFirst(sorted) && multiset(sorted) == multiset(stats)
    ensures forall m :: SumOf(sorted, m) == SumOf(stats, m)
  {
    sorted := [];
    assert forall m :: SumOf([], m) == 0 && stats[..0] == [];
    hide SumOf;
    for i := 0 to |stats|
      invariant NewestFirst(sorted) && multiset(sorted) == multiset(stats[..i])
      invariant forall m :: SumOf(sorted, m) == SumOf(stats[..i], m)
    {
      OneMoreStat(stats, i);
      forall j | 0 <= j < |sorted| ensures sorted[j].minute != stats[i].minute {
        assert sorted[j] in multiset(stats[..i]);
      }
      sorted := Insert(sorted, stats[i]);
    }
    assert stats[..|stats|] == stats;
  }

  lemma OneMoreStat(stats: seq<Stat>, i: nat)
    requires i < |stats|
    ensures multiset(stats[..i + 1]) == multiset(stats[..i]) + multiset{stats[i]}
    ensures forall m :: SumOf(stats[..i + 1], m) == SumOf(stats[..i], m) + stats[i].counts.Get(m)
  {
    assert stats[..i + 1] == stats[..i] + [stats[i]];
    assert stats[..i + 1][..i] == stats[..i];
  }

  lemma HeadsAgree(a: seq<Stat>, b: seq<Stat>)
    requires NewestFirst(a) && NewestFirst(b) && multiset(a) == multiset(b) && a != [] && b != []
    ensures a[0] == b[0]
  {
    assert a[0] in multiset(b) && b[0] in multiset(a);
    var i, j :| 0 <= i < |a| && 0 <= j < |b| && a[i] == b[0] && b[j] == a[0];
    assert a[0].minute >= a[i].minute && b[0].minute >= b[j].minute;
    assert j == 0;
  }

  /** A listing of given buckets, newest first, is unique: the order in which the map is walked does
      not show. */
  lemma {:induction false} ListingIsUnique(a: seq<Stat>, b: seq<Stat>)
    requires NewestFirst(a) && NewestFirst(b) && multiset(a) == multiset(b)
    ensures a == b
  {
    assert |multiset(a)| == |a| && |multiset(b)| == |b|;
    if a != [] {
      HeadsAgree(a, b);
      assert a == [a[0]] + a[1..] && b == [b[0]] + b[1..];
      assert multiset(a[1..]) == multiset(a) - multiset{a[0]};
      assert multiset(b[1..]) == multiset(b) - multiset{b[0]};
      ListingIsUnique(a[1..], b[1..]);
    }
  }

  // ---- Walking the map ----

  /** The buckets listed are those of these minutes, each once. */
  ghost predicate Lists(all: seq<Stat>, minutes: map<int, Counts>, done: set<int>) {
    && (forall i :: 0 <= i < |all| ==> all[i].minute in minutes && all[i].counts == minutes[all[i].minute])
    && (forall i, j :: 0 <= i < j < |all| ==> all[i].minute != all[j].minute)
    && (set i | 0 <= i < |all| :: all[i].minute) == done
  }

  lemma ListsOneMore(all: seq<Stat>, minutes: map<int, Counts>, done: set<int>, k: int)
    requires Lists(all, minutes, done) && k in minutes && k !in done
    ensures Lists(all + [Stat(k, minutes[k])], minutes, done + {k})
  {
    var more := all + [Stat(k, minutes[k])];
    forall i | 0 <= i < |all| ensures all[i].minute in done {
    }
    forall m ensures m in (set i | 0 <= i < |more| :: more[i].minute) <==> m in done + {k} {
      if m in done {
        var i :| 0 <= i < |all| && all[i].minute == m;
        assert more[i].minute == m;
      }
      assert more[|all|].minute == k;
    }
  }

  /** The walk of LoadStats, in whatever order: the running totals and the list of buckets. */
  method Collect(minutes: map<int, Counts>) returns (totals: Counts, all: seq<Stat>)
    ensures Lists(all, minutes, minutes.Keys)
    ensures forall m :: totals.Get(m) == SumOf(all, m)
  {
    totals, all := ZERO, [];
    var rest := minutes.Keys;
    ghost var done: set<int> := {};
    while rest != {}
      invariant rest <= minutes.Keys && done == minutes.Keys - rest
      invariant Lists(all, minutes, done)
      invariant forall m :: totals.Get(m) == SumOf(all, m)
      decreases |rest|
    {
      SomeElement(rest);
      var k :| k in rest;
      ListsOneMore(all, minutes, done, k);
      totals := totals.Plus(minutes[k]);
      ghost var before := all;
      all := all + [Stat(k, minutes[k])];
      assert all[..|all| - 1] == before;
      rest := rest - {k};
      done := done + {k};
    }
  }

  /** The buckets of these minutes, summed up, are the increments that went to them. */
  lemma {:induction false} SumIsCount(all: seq<Stat>, minutes: map<int, Counts>, done: set<int>, incs: seq<Inc>,
      m: Metric)
    requires Lists(all, minutes, done)
    requires forall k, n :: k in minutes ==> minutes[k].Get(n) == CountIn(incs, {k}, n)
    ensures SumOf(all, m) == CountIn(incs, done, m)
    decreases |all|
  {
    if all == [] {
      assert done == {};
      CountNone(incs, m);
    } else {
      var rest, last := all[..|all| - 1], all[|all| - 1];
      var others := done - {last.minute};
      ListsOneLess(all, minutes, done);
      SumIsCount(rest, minutes, others, incs, m);
      CountOneMore(incs, others, last.minute, m);
      assert last.minute in done;
      assert others + {last.minute} == done;
    }
  }

  lemma ListsOneLess(all: seq<Stat>, minutes: map<int, Counts>, done: set<int>)
    requires Lists(all, minutes, done) && all != []
    ensures Lists(all[..|all| - 1], minutes, done - {all[|all| - 1].minute})
    ensures all[|all| - 1].minute in done
  {
    var rest, last := all[..|all| - 1], all[|all| - 1];
    forall m ensures m in (set i | 0 <= i < |rest| :: rest[i].minute) <==> m in done - {last.minute} {
      if m in done && m != last.minute {
        var i :| 0 <= i < |all| && all[i].minute == m;
        assert rest[i].minute == m;
      }
      if i :| 0 <= i < |rest| && rest[i].minute == m {
        assert all[i].minute == m;
      }
    }
  }

  class DBStats {
    var minutes: map<int, Counts>
    var queuedBegins: int
    var queuedWrites: int
    var queuedHttpRequests: int
    /** The increments in buckets that have not been evicted. */
    ghost var live: seq<Inc>

    /** Every bucket holds the numbers of increments that went to it. */
    ghost predicate Valid()
      reads this
    {
      && (forall inc | inc in live :: inc.minute in minutes)
      && (forall k, m :: k in minutes ==> minutes[k].Get(m) == CountIn(live, {k}, m))
    }

    constructor ()
      ensures Valid() && minutes == map[] && live == []
      ensures queuedBegins == queuedWrites == queuedHttpRequests == 0
    {
      minutes, live := map[], [];
      queuedBegins, queuedWrites, queuedHttpRequests := 0, 0, 0;
    }

    /** IncReads, IncWrites and the others. */
    method Increment(m: Metric, now: int)
      requires Valid()
      modifies `minutes, `live
      ensures Valid() && live == old(live) + [Inc(MinuteOf(now), m)]
      ensures minutes.Keys == old(minutes).Keys + {MinuteOf(now)}
    {
      var k := GetOrCreateMinuteData(now);
      ghost var inc := Inc(k, m);
      minutes := minutes[k := minutes[k].Add(m)];
      live := live + [inc];
      assert live[..|live| - 1] == old(live);
    }

    /** getOrCreateMinuteData; the key stands for the pointer. */
    method GetOrCreateMinuteData(now: int) returns (k: int)
      requires Valid()
      modifies `minutes
      ensures Valid() && k == MinuteOf(now) && k in minutes
      ensures minutes == if k in old(minutes) then old(minutes) else old(minutes)[k := ZERO]
    {
      k := MinuteOf(now);
      if k !in minutes {
        minutes := minutes[k := ZERO];
        forall m ensures CountIn(live, {k}, m) == 0 {
          NoneThere(live, k, m);
        }
      }
    }

    /** What the cleanup worker does at a tick, in whatever order the map is walked: exactly the buckets
        of minutes that started more than 24 hours ago go. */
    method Evict(now: int)
      requires Valid()
      modifies `minutes, `live
      ensures Valid() && live == Kept(old(live), now - 86_400_000_000_000)
      ensures minutes == map k | k in old(minutes) && k >= now - 86_400_000_000_000 :: old(minutes)[k]
    {
      var cutoff := now - DAY;
      var rest := minutes.Keys;
      while rest != {}
        invariant rest <= old(minutes).Keys
        invariant minutes == map k | k in old(minutes) && (k in rest || k >= cutoff) :: old(minutes)[k]
        invariant live == old(live)
        decreases |rest|
      {
        SomeElement(rest);
        var k :| k in rest;
        if k < cutoff {
          minutes := minutes - {k};
        }
        rest := rest - {k};
      }
      live := Kept(live, cutoff);
      forall k, m | k in minutes ensures minutes[k].Get(m) == CountIn(live, {k}, m) {
        CountKept(old(live), cutoff, k, m);
      }
      KeptAreYoung(old(live), cutoff);
    }

    /** The report: every bucket once, strictly newest first; the totals are the sums of the buckets
        and the numbers of increments in them. */
    method LoadStats() returns (loaded: LoadedStats)
      requires Valid()
      ensures NewestFirst(loaded.stats)
      ensures multiset(loaded.stats) == multiset(set k | k in minutes :: Stat(k, minutes[k]))
      ensures forall m :: loaded.totals.Get(m) == SumOf(loaded.stats, m) == CountOf(live, m)
      ensures loaded.queuedBegins == queuedBegins && loaded.queuedWrites == queuedWrites
      ensures loaded.queuedHttpRequests == queuedHttpRequests
    {
      var totals, all := Collect(minutes);
      forall m ensures SumOf(all, m) == CountOf(live, m) {
        SumIsCount(all, minutes, minutes.Keys, live, m);
        CountAll(live, minutes.Keys, m);
      }
      ListedOnce(all, minutes);
      var sorted := SortNewestFirst(all);
      loaded := LoadedStats(totals, sorted, queuedBegins, queuedWrites, queuedHttpRequests);
    }
  }

  lemma ListedOnce(all: seq<Stat>, minutes: map<int, Counts>)
    requires Lists(all, minutes, minutes.Keys)
    ensures multiset(all) == multiset(set k | k in minutes :: Stat(k, minutes[k]))
  {
    var buckets := set k | k in minutes :: Stat(k, minutes[k]);
    forall s ensures multiset(all)[s] == multiset(buckets)[s] {
      Occurrences(all, s);
      if s in buckets {
        assert s.minute in set i | 0 <= i < |all| :: all[i].minute;
        var i :| 0 <= i < |all| && all[i].minute == s.minute;
        assert all[i] == s;
      }
    }
  }

  lemma {:induction false} Occurrences(all: seq<Stat>, s: Stat)
    requires forall i, j :: 0 <= i < j < |all| ==> all[i].minute != all[j].minute
    ensures multiset(all)[s] == if s in all then 1 else 0
  {
    if all != [] {
      var rest, last := all[..|all| - 1], all[|all| - 1];
      assert all == rest + [last];
      Occurrences(rest, s);
    }
  }

  lemma {:induction false} NoneThere(incs: seq<Inc>, k: int, m: Metric)
    requires forall inc | inc in incs :: inc.minute != k
    ensures CountIn(incs, {k}, m) == 0
  {
    if incs != [] {
      assert incs[|incs| - 1] in incs;
      NoneThere(incs[..|incs| - 1], k, m);
    }
  }
}
