/**
 * The best-peer selections. They enumerate a map in an arbitrary order and use `sort.Slice`, which is
 * not stable; this module says what is determined nevertheless.
 */
module Ranking {
  import opened Model
  import opened Scores
  import opened Store

  // ---------------------------------------------------------------- sorting

  predicate NonIncreasing<T>(xs: seq<T>, key: T -> int) {
    forall i, j :: 0 <= i < j < |xs| ==> key(xs[i]) >= key(xs[j])
  }

  /** What `sort.Slice` with `key(i) > key(j)` guarantees: ties may end up in any order. */
  predicate SortsInto<T(==)>(xs: seq<T>, ys: seq<T>, key: T -> int) {
    multiset(xs) == multiset(ys) && NonIncreasing(ys, key)
  }

  lemma {:induction false} InsertSorted<T>(ys: seq<T>, x: T, key: T -> int) returns (r: seq<T>)
    requires NonIncreasing(ys, key)
    ensures multiset(r) == multiset(ys) + multiset{x} && NonIncreasing(r, key)
  {
    if ys == [] || key(x) >= key(ys[0]) {
      r := [x] + ys;
      assert multiset(r) == multiset([x]) + multiset(ys);
    } else {
      var rest := InsertSorted(ys[1..], x, key);
      r := [ys[0]] + rest;
      AllBelow(rest, ys[1..], x, ys[0], key);
      PrependKeepsOrder(ys[0], rest, key);
      assert multiset(r) == multiset([ys[0]]) + multiset(rest);
      assert ys == [ys[0]] + ys[1..];
      assert multiset(ys) == multiset([ys[0]]) + multiset(ys[1..]);
    }
  }

  lemma AllBelow<T>(rest: seq<T>, tail: seq<T>, x: T, first: T, key: T -> int)
    requires multiset(rest) == multiset(tail) + multiset{x}
    requires key(first) >= key(x) && forall j :: 0 <= j < |tail| ==> key(first) >= key(tail[j])
    ensures forall j :: 0 <= j < |rest| ==> key(first) >= key(rest[j])
  {
    forall j | 0 <= j < |rest|
      ensures key(first) >= key(rest[j])
    {
      assert rest[j] in multiset(rest);
    }
  }

  lemma PrependKeepsOrder<T>(first: T, rest: seq<T>, key: T -> int)
    requires NonIncreasing(rest, key) && forall j :: 0 <= j < |rest| ==> key(first) >= key(rest[j])
    ensures NonIncreasing([first] + rest, key)
  {
  }

  lemma {:induction false} SortingExists<T>(xs: seq<T>, key: T -> int) returns (ys: seq<T>)
    ensures SortsInto(xs, ys, key)
  {
    if xs == [] {
      ys := [];
    } else {
      ys := SortingExists(xs[1..], key);
      ys := InsertSorted(ys, xs[0], key);
      assert xs == [xs[0]] + xs[1..];
    }
  }

  /** `sort.Slice`: any sorting is possible. */
  method SortSlice<T(==)>(xs: seq<T>, key: T -> int) returns (ys: seq<T>)
    ensures SortsInto(xs, ys, key)
  {
    ghost var one := SortingExists(xs, key);
    ys :| SortsInto(xs, ys, key);
  }

  // ---------------------------------------------------------------- selections

  function Score(p: Peer): int {
    EffectiveScore(p.score, p.flag)
  }

  predicate Thick(p: Peer) {
    p.flag == THICK || p.flag == VERY_THICK
  }

  predicate Eligible(p: Peer, now: int, thickOnly: bool) {
    !IsExpired(p, now) && !p.fake && (thickOnly ==> Thick(p))
  }

  function EligibleIds(peers: map<string, Peer>, now: int, thickOnly: bool): set<string> {
    set id | id in peers && Eligible(peers[id], now, thickOnly)
  }

  /** What peers are ranked by: the score, its signed square for thick peers, its cube for very thick ones. */
  lemma RankedBy(p: Peer)
    requires -2_097_152 <= p.score <= 2_097_151
    ensures p.flag == "very_thick" ==> Score(p) == p.score * p.score * p.score
    ensures p.flag == "thick" ==> Score(p) == if p.score < 0 then -(p.score * p.score) else p.score * p.score
    ensures p.flag != "thick" && p.flag != "very_thick" ==> Score(p) == p.score
  {
    EffectiveScores(p.score, p.flag);
  }

  /** Who may be listed or ranked: unexpired peers that are not fake; in some lists, thick ones only. */
  lemma WhoIsEligible(peers: map<string, Peer>, now: int, thickOnly: bool, id: string)
    requires id in peers && peers[id].ttl <= 9_223_372_036
    ensures var p := peers[id];
            id in EligibleIds(peers, now, thickOnly) <==>
              && !p.fake && now <= p.lastSeen + (if p.ttl <= 0 then 300 else p.ttl) * 1_000_000_000
              && (thickOnly ==> p.flag == "thick" || p.flag == "very_thick")
  {
  }

  predicate DistinctIds(ps: seq<Peer>) {
    forall i, j :: 0 <= i < j < |ps| ==> ps[i].id != ps[j].id
  }

  predicate Lists(ps: seq<Peer>, id: string) {
    exists i :: 0 <= i < |ps| && ps[i].id == id
  }

  /** The peers in `out` are stored and eligible, each once. */
  predicate Picked(out: seq<Peer>, peers: map<string, Peer>, eligible: set<string>) {
    && eligible <= peers.Keys
    && (forall i :: 0 <= i < |out| ==> out[i].id in eligible && peers[out[i].id] == out[i])
    && DistinctIds(out)
  }

  /** `out` is a best selection of `n`: right size, best first, and nobody left out scores more than anybody in it. */
  predicate IsTop(out: seq<Peer>, peers: map<string, Peer>, eligible: set<string>, n: int) {
    && Picked(out, peers, eligible)
    && |out| == (if n <= 0 then 0 else if n < |eligible| then n else |eligible|)
    && NonIncreasing(out, Score)
    && (forall id, i :: id in eligible && !Lists(out, id) && 0 <= i < |out| ==> Score(peers[id]) <= Score(out[i]))
  }

  lemma {:induction false} OccursTwice<T>(xs: seq<T>, i: int, j: int)
    requires 0 <= i < j < |xs| && xs[i] == xs[j]
    ensures multiset(xs)[xs[i]] >= 2
  {
    assert xs == xs[..j] + xs[j..];
    assert xs[i] in xs[..j] && xs[j] in xs[j..];
  }

  lemma {:induction false} OccursOnce(xs: seq<Peer>, p: Peer)
    requires DistinctIds(xs)
    ensures multiset(xs)[p] <= 1
  {
    if xs != [] {
      var n := |xs| - 1;
      OccursOnce(xs[..n], p);
      assert xs == xs[..n] + [xs[n]];
      if p in xs[..n] {
        var i :| 0 <= i < n && xs[..n][i] == p;
        assert xs[i].id != xs[n].id;
      }
    }
  }

  /** Sorting keeps a selection a selection. */
  lemma SortingKeepsPicked(active: seq<Peer>, sorted: seq<Peer>, peers: map<string, Peer>, eligible: set<string>)
    requires Picked(active, peers, eligible) && multiset(active) == multiset(sorted)
    ensures Picked(sorted, peers, eligible) && |sorted| == |active|
  {
    assert |sorted| == |multiset(sorted)| == |multiset(active)| == |active|;
    forall i | 0 <= i < |sorted|
      ensures sorted[i].id in eligible && peers[sorted[i].id] == sorted[i]
    {
      assert sorted[i] in multiset(active);
    }
    forall i, j | 0 <= i < j < |sorted|
      ensures sorted[i].id != sorted[j].id
    {
      if sorted[i] == sorted[j] { OccursTwice(sorted, i, j); }
      OccursOnce(active, sorted[i]);
    }
  }

  lemma {:induction false} DistinctCardinality(ps: seq<Peer>, ids: set<string>)
    requires DistinctIds(ps) && forall id :: id in ids <==> Lists(ps, id)
    ensures |ids| == |ps|
  {
    if ps == [] {
      assert ids == {};
    } else {
      var n := |ps| - 1;
      var last := ps[n].id;
      assert Lists(ps, last);
      forall id
        ensures id in ids - {last} <==> Lists(ps[..n], id)
      {
        if id in ids - {last} {
          var i :| 0 <= i < |ps| && ps[i].id == id;
          assert ps[..n][i].id == id;
        }
        if Lists(ps[..n], id) {
          var i :| 0 <= i < n && ps[..n][i].id == id;
          assert ps[i].id == id;
        }
      }
      DistinctCardinality(ps[..n], ids - {last});
    }
  }

  /** A selection as large as the set of eligible peers lists them all. */
  lemma FullSelectionListsAll(ps: seq<Peer>, peers: map<string, Peer>, eligible: set<string>, id: string)
    requires Picked(ps, peers, eligible) && |ps| == |eligible| && id in eligible
    ensures Lists(ps, id)
  {
    var listed := set i | 0 <= i < |ps| :: ps[i].id;
    forall x ensures x in listed <==> Lists(ps, x) {}
    DistinctCardinality(ps, listed);
    SameSizeSubset(listed, eligible);
  }

  lemma CutBeatsTheRest(sorted: seq<Peer>, peers: map<string, Peer>, eligible: set<string>, k: int, id: string, i: int)
    requires Picked(sorted, peers, eligible) && NonIncreasing(sorted, Score) && |sorted| == |eligible|
    requires 0 <= i < k <= |sorted| && id in eligible
    requires forall q :: 0 <= q < k ==> sorted[q].id != id
    ensures Score(peers[id]) <= Score(sorted[i])
  {
    FullSelectionListsAll(sorted, peers, eligible, id);
    var j :| 0 <= j < |sorted| && sorted[j].id == id;
    InOrder(sorted, i, j);
  }

  /** Cutting a sorted enumeration of all eligible peers gives a best selection. */
  lemma CutIsTop(sorted: seq<Peer>, peers: map<string, Peer>, eligible: set<string>, n: int)
    requires Picked(sorted, peers, eligible) && NonIncreasing(sorted, Score)
    requires |sorted| == |eligible| && n > 0
    ensures IsTop(sorted[..if n > |sorted| then |sorted| else n], peers, eligible, n)
  {
    var k := if n > |sorted| then |sorted| else n;
    var out := sorted[..k];
    assert forall q :: 0 <= q < k ==> out[q] == sorted[q];
    forall id, i | id in eligible && !Lists(out, id) && 0 <= i < |out|
      ensures Score(peers[id]) <= Score(out[i])
    {
      assert forall q :: 0 <= q < k ==> out[q].id != id;
      CutBeatsTheRest(sorted, peers, eligible, k, id, i);
    }
    forall i, j | 0 <= i < j < |out|
      ensures Score(out[i]) >= Score(out[j])
    {
      InOrder(sorted, i, j);
    }
  }

  lemma InOrder(ps: seq<Peer>, i: int, j: int)
    requires NonIncreasing(ps, Score) && 0 <= i < j < |ps|
    ensures Score(ps[i]) >= Score(ps[j])
  {
  }

  lemma SameSizeSubset(a: set<string>, b: set<string>)
    requires a <= b && |a| == |b|
    ensures a == b
  {
    assert |b - a| == 0;
  }

  // ---------------------------------------------------------------- the two implementations

  lemma ExtendPicked(active: seq<Peer>, peers: map<string, Peer>, eligible: set<string>, id: string)
    requires Picked(active, peers, eligible) && id in eligible && peers[id].id == id && !Lists(active, id)
    ensures Picked(active + [peers[id]], peers, eligible)
  {
  }

  lemma OneLess(eligible: set<string>, rest: set<string>, id: string)
    requires id in rest
    ensures |eligible - (rest - {id})| == |eligible - rest| + (if id in eligible then 1 else 0)
  {
    if id in eligible {
      assert eligible - (rest - {id}) == (eligible - rest) + {id};
    } else {
      assert eligible - (rest - {id}) == eligible - rest;
    }
  }

  /** `active` holds the eligible peers among those already enumerated. */
  ghost predicate Enumerated(active: seq<Peer>, peers: map<string, Peer>, eligible: set<string>, rest: set<string>) {
    && rest <= peers.Keys
    && Picked(active, peers, eligible)
    && (forall i :: 0 <= i < |active| ==> active[i].id !in rest)
    && |active| == |eligible - rest|
  }

  lemma EnumerateOne(active: seq<Peer>, peers: map<string, Peer>, eligible: set<string>, rest: set<string>, id: string)
    requires Enumerated(active, peers, eligible, rest) && id in rest && peers[id].id == id
    ensures Enumerated(if id in eligible then active + [peers[id]] else active, peers, eligible, rest - {id})
  {
    OneLess(eligible, rest, id);
    if id in eligible {
      assert !Lists(active, id);
      ExtendPicked(active, peers, eligible, id);
    }
  }

  /** The enumeration loop of `GetBestPeers` and `GetBestThickPeers`, in whatever order the map yields. */
  method Enumerate(peers: map<string, Peer>, eligibility: Peer -> bool, ghost eligible: set<string>)
    returns (active: seq<Peer>)
    requires forall id :: id in peers ==> peers[id].id == id
    requires eligible == set id | id in peers && eligibility(peers[id])
    ensures Picked(active, peers, eligible) && |active| == |eligible|
  {
    active := [];
    var rest := peers.Keys;
    assert eligible - peers.Keys == {};
    while rest != {}
      invariant Enumerated(active, peers, eligible, rest)
      decreases |rest|
    {
      var id :| id in rest;
      EnumerateOne(active, peers, eligible, rest, id);
      rest := rest - {id};
      if eligibility(peers[id]) {
        active := active + [peers[id]];
      }
    }
    assert eligible - {} == eligible;
  }

  /** The selection of the in-memory store. */
  method BestPeers(peers: map<string, Peer>, now: int, thickOnly: bool, n: int) returns (out: seq<Peer>)
    requires forall id :: id in peers ==> peers[id].id == id
    ensures IsTop(out, peers, EligibleIds(peers, now, thickOnly), n)
  {
    if n <= 0 {
      return [];
    }
    var active := Enumerate(peers, (p: Peer) => Eligible(p, now, thickOnly), EligibleIds(peers, now, thickOnly));
    var sorted := SortSlice(active, Score);
    SortingKeepsPicked(active, sorted, peers, EligibleIds(peers, now, thickOnly));
    CutIsTop(sorted, peers, EligibleIds(peers, now, thickOnly), n);
    out := sorted[..if n > |sorted| then |sorted| else n];
  }

  datatype ScoredPeer = ScoredPeer(peer: Peer, score: int)

  function Undecorated(cs: seq<ScoredPeer>): (ps: seq<Peer>)
    ensures |ps| == |cs| && forall i :: 0 <= i < |cs| ==> ps[i] == cs[i].peer
  {
    seq(|cs|, i requires 0 <= i < |cs| => cs[i].peer)
  }

  predicate WellScored(cs: seq<ScoredPeer>, score: Peer -> int) {
    forall i :: 0 <= i < |cs| ==> cs[i].score == score(cs[i].peer)
  }

  lemma {:induction false} UndecoratedCount(cs: seq<ScoredPeer>, score: Peer -> int, p: Peer)
    requires WellScored(cs, score)
    ensures multiset(Undecorated(cs))[p] == multiset(cs)[ScoredPeer(p, score(p))]
  {
    if cs != [] {
      var head, tail := cs[0], cs[1..];
      UndecoratedCount(tail, score, p);
      assert cs == [head] + tail;
      assert Undecorated(cs) == [head.peer] + Undecorated(tail);
      assert head == ScoredPeer(head.peer, score(head.peer));
      CountOfCons(head, tail, ScoredPeer(p, score(p)));
      CountOfCons(head.peer, Undecorated(tail), p);
    }
  }

  lemma CountOfCons<T>(x: T, xs: seq<T>, y: T)
    ensures multiset([x] + xs)[y] == multiset(xs)[y] + (if x == y then 1 else 0)
  {
  }

  lemma SortedDecorations(candidates: seq<ScoredPeer>, sorted: seq<ScoredPeer>)
    requires WellScored(candidates, Score) && SortsInto(candidates, sorted, (c: ScoredPeer) => c.score)
    ensures multiset(Undecorated(sorted)) == multiset(Undecorated(candidates))
    ensures NonIncreasing(Undecorated(sorted), Score)
  {
    forall i | 0 <= i < |sorted|
      ensures sorted[i].score == Score(sorted[i].peer)
    {
      assert sorted[i] in multiset(candidates);
    }
    forall p: Peer
      ensures multiset(Undecorated(sorted))[p] == multiset(Undecorated(candidates))[p]
    {
      UndecoratedCount(candidates, Score, p);
      UndecoratedCount(sorted, Score, p);
    }
    var key := (c: ScoredPeer) => c.score;
    forall i, j | 0 <= i < j < |sorted|
      ensures Score(sorted[i].peer) >= Score(sorted[j].peer)
    {
      assert key(sorted[i]) >= key(sorted[j]);
    }
  }

  /** Each row with its effective score. */
  method Decorate(rows: seq<Peer>) returns (candidates: seq<ScoredPeer>)
    ensures WellScored(candidates, Score) && Undecorated(candidates) == rows
  {
    candidates := [];
    for i := 0 to |rows|
      invariant |candidates| == i && WellScored(candidates, Score)
      invariant forall j :: 0 <= j < i ==> candidates[j].peer == rows[j]
    {
      var effective := ComputeEffectiveScore(rows[i].score, rows[i].flag);
      candidates := candidates + [ScoredPeer(rows[i], effective)];
    }
  }

  method TakePeers(candidates: seq<ScoredPeer>, k: nat) returns (out: seq<Peer>)
    requires k <= |candidates|
    ensures out == Undecorated(candidates)[..k]
  {
    out := [];
    for i := 0 to k
      invariant out == Undecorated(candidates)[..i]
    {
      out := out + [candidates[i].peer];
    }
  }

  /** The selection of `dbStore`: scores are computed first, and the pairs are sorted by them. */
  method DecoratedBestPeers(peers: map<string, Peer>, now: int, n: int) returns (out: seq<Peer>)
    requires forall id :: id in peers ==> peers[id].id == id
    ensures IsTop(out, peers, EligibleIds(peers, now, false), n)
  {
    if n <= 0 {
      return [];
    }
    ghost var eligible := EligibleIds(peers, now, false);
    var rows := Enumerate(peers, (p: Peer) => Eligible(p, now, false), eligible);
    var candidates := Decorate(rows);
    var sorted := SortSlice(candidates, (c: ScoredPeer) => c.score);
    SortedDecorations(candidates, sorted);
    SortingKeepsPicked(rows, Undecorated(sorted), peers, eligible);
    CutIsTop(Undecorated(sorted), peers, eligible, n);
    out := TakePeers(sorted, if n > |sorted| then |sorted| else n);
  }

  // ---------------------------------------------------------------- what is determined

  lemma MoreThanRoomFor(xs: seq<Peer>, ys: seq<Peer>) returns (i: int)
    requires DistinctIds(xs) && |xs| > |ys|
    ensures 0 <= i < |xs| && !Lists(ys, xs[i].id)
  {
    var a := set k | 0 <= k < |xs| :: xs[k].id;
    var b := set k | 0 <= k < |ys| :: ys[k].id;
    forall id ensures id in a <==> Lists(xs, id) {}
    DistinctCardinality(xs, a);
    FewIds(ys, b);
    var id := OneMore(a, b);
    i :| 0 <= i < |xs| && xs[i].id == id;
  }

  lemma OneMore(a: set<string>, b: set<string>) returns (x: string)
    requires |a| > |b|
    ensures x in a && x !in b
  {
    if forall y :: y in a ==> y in b {
      Fewer(a, b);
    }
    x :| x in a && x !in b;
  }

  lemma {:induction false} FewIds(ys: seq<Peer>, ids: set<string>)
    requires ids == set k | 0 <= k < |ys| :: ys[k].id
    ensures |ids| <= |ys|
  {
    if ys == [] {
      assert ids == {};
    } else {
      var n := |ys| - 1;
      var fewer := set k | 0 <= k < n :: ys[..n][k].id;
      FewIds(ys[..n], fewer);
      assert ids <= fewer + {ys[n].id};
      Fewer(ids, fewer + {ys[n].id});
    }
  }

  lemma Fewer(a: set<string>, b: set<string>)
    requires a <= b
    ensures |a| <= |b|
  {
    assert b == a + (b - a);
  }

  lemma SomeoneNew(a: seq<Peer>, b: seq<Peer>, k: int) returns (i: int)
    requires DistinctIds(a) && 0 <= k < |a| && k < |b|
    ensures 0 <= i <= k && forall q :: 0 <= q < k ==> b[q].id != a[i].id
  {
    i := MoreThanRoomFor(a[..k + 1], b[..k]);
    assert forall q :: 0 <= q < k ==> b[..k][q] == b[q];
  }

  lemma NotBetterAt(a: seq<Peer>, b: seq<Peer>, peers: map<string, Peer>, eligible: set<string>, n: int, m: int, k: int)
    requires IsTop(a, peers, eligible, n) && IsTop(b, peers, eligible, m)
    requires 0 <= k < |a| && k < |b|
    ensures Score(a[k]) <= Score(b[k])
  {
    var i := SomeoneNew(a, b, k);
    NotAmongTheFirst(b, peers, eligible, m, a[i].id, k);
    if i < k {
      InOrder(a, i, k);
    }
  }

  lemma NotAmongTheFirst(b: seq<Peer>, peers: map<string, Peer>, eligible: set<string>, m: int, id: string, k: int)
    requires IsTop(b, peers, eligible, m) && id in eligible && 0 <= k < |b|
    requires forall q :: 0 <= q < k ==> b[q].id != id
    ensures Score(peers[id]) <= Score(b[k])
  {
    if Lists(b, id) {
      var j :| 0 <= j < |b| && b[j].id == id;
      if k < j {
        InOrder(b, k, j);
      }
    }
  }

  /**
   * Whatever the enumeration order and the tie-breaks, two best selections of the same peers show the
   * same scores position by position; so a shorter selection's scores are a prefix of a longer one's.
   */
  lemma TopScoresAreDetermined(a: seq<Peer>, b: seq<Peer>, peers: map<string, Peer>, eligible: set<string>, n: int,
                               m: int)
    requires IsTop(a, peers, eligible, n) && IsTop(b, peers, eligible, m) && n <= m
    ensures |a| <= |b| && (n == m ==> |a| == |b|)
    ensures forall k :: 0 <= k < |a| ==> Score(a[k]) == Score(b[k])
  {
    forall k | 0 <= k < |a|
      ensures Score(a[k]) == Score(b[k])
    {
      NotBetterAt(a, b, peers, eligible, n, m, k);
      NotBetterAt(b, a, peers, eligible, m, n, k);
    }
  }

  /** A peer that outscores all but fewer than `n` eligible peers is in every best selection of `n`. */
  lemma ClearWinnersAreListed(out: seq<Peer>, peers: map<string, Peer>, eligible: set<string>, n: int, id: string,
                              rivals: set<string>)
    requires IsTop(out, peers, eligible, n) && id in eligible
    requires rivals == set x | x in eligible && x != id && Score(peers[x]) >= Score(peers[id])
    requires |rivals| < n
    ensures Lists(out, id)
  {
    if !Lists(out, id) {
      var listed := set k | 0 <= k < |out| :: out[k].id;
      forall x ensures x in listed <==> Lists(out, x) {}
      DistinctCardinality(out, listed);
      assert listed <= rivals;
      Fewer(listed, rivals);
      assert id in eligible - listed;
      Fewer(listed + {id}, eligible);
      assert false;
    }
  }
}
