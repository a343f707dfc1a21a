/** Re-ranking hits by age, and when the result is a true top-k (memory/episodic.py). */
module DecayedRetrieval {
  import opened Types
  import opened OrderedDict
  import opened Sequences
  import opened Sorting
  import opened VectorStores

  function AgeDays(ts: real, now: real): real {
    if now - ts > 0.0 then (now - ts) / 86400.0 else 0.0
  }

  /** `factor` stands for exp(-rate * age); a hit without a time keeps its score. */
  function Faded(h: MemoryHit, factor: real -> real, now: real): MemoryHit {
    match h.point.payload.ts
    case None => h
    case Some(ts) => MemoryHit(h.point, h.score * factor(AgeDays(ts, now)))
  }

  function FadeAll(hits: seq<MemoryHit>, factor: real -> real, now: real): (faded: seq<MemoryHit>)
    ensures |faded| == |hits| && forall i :: 0 <= i < |hits| ==> faded[i] == Faded(hits[i], factor, now)
  {
    seq(|hits|, i requires 0 <= i < |hits| => Faded(hits[i], factor, now))
  }

  function Reranked(hits: seq<MemoryHit>, topK: int, factor: real -> real, now: real): seq<MemoryHit> {
    FirstOnes(SortBy(FadeAll(hits, factor, now), BestFirst), topK)
  }

  function Retrieved(d: Points, userId: string, score: MemoryPoint -> Option<real>, topK: int, minScore: real,
      decays: bool, factor: real -> real, now: real): seq<MemoryHit>
  {
    if decays then Reranked(SearchHits(d, userId, score, topK * 2, minScore), topK, factor, now)
    else SearchHits(d, userId, score, topK, minScore)
  }

  /** Decay never raises a score that is not negative, and never makes it negative. */
  ghost predicate Fades(factor: real -> real) {
    forall age: real :: age >= 0.0 ==> 0.0 <= factor(age) <= 1.0
  }

  // ---- Top-k ----

  ghost predicate NoneAbove(rest: multiset<MemoryHit>, result: seq<MemoryHit>) {
    forall x, i :: x in rest && 0 <= i < |result| ==> x.score <= result[i].score
  }

  /**
   k of the candidates, or all if there are fewer, best first, and no other candidate scores more than one of them.
   */
  ghost predicate IsTopK(result: seq<MemoryHit>, candidates: seq<MemoryHit>, k: nat) {
    && |result| == (if k < |candidates| then k else |candidates|)
    && multiset(result) <= multiset(candidates)
    && SortedBy(result, BestFirst)
    && NoneAbove(multiset(candidates) - multiset(result), result)
  }

  lemma FirstAreBest(s: seq<MemoryHit>, n: nat)
    requires SortedBy(s, BestFirst) && n <= |s|
    ensures NoneAbove(multiset(s[n..]), s[..n])
  {
    forall x, i | x in multiset(s[n..]) && 0 <= i < n ensures x.score <= s[i].score {
      var j :| 0 <= j < |s[n..]| && s[n..][j] == x;
      assert BestFirst(s[i]) <= BestFirst(s[n + j]);
    }
  }

  lemma RestOf(s: seq<MemoryHit>, n: nat)
    requires n <= |s|
    ensures multiset(s[..n]) <= multiset(s) && multiset(s) - multiset(s[..n]) == multiset(s[n..])
  {
    assert s == s[..n] + s[n..];
    assert multiset(s) == multiset(s[..n]) + multiset(s[n..]);
  }

  lemma PrefixIsTopK(s: seq<MemoryHit>, candidates: seq<MemoryHit>, k: nat)
    requires SortedBy(s, BestFirst) && multiset(s) == multiset(candidates) && |s| == |candidates|
    ensures IsTopK(FirstOnes(s, k), candidates, k)
  {
    hide NoneAbove, FirstOnes;
    var n := if k < |s| then k else |s|;
    FirstAreBest(s, n);
    FirstIsPrefix(s, k);
    RestOf(s, n);
  }

  lemma FirstIsPrefix(s: seq<MemoryHit>, k: nat)
    ensures FirstOnes(s, k) == s[..if k < |s| then k else |s|]
  {
  }

  lemma SortedPrefixIsTopK(candidates: seq<MemoryHit>, k: nat)
    ensures IsTopK(FirstOnes(SortBy(candidates, BestFirst), k), candidates, k)
  {
    hide IsTopK, FirstOnes, SortedBy, SortBy;
    SortBySorts(candidates, BestFirst);
    PrefixIsTopK(SortBy(candidates, BestFirst), candidates, k);
  }

  /** Everything the user has that scores at least the minimum. */
  function Candidates(d: Points, userId: string, score: MemoryPoint -> Option<real>, minScore: real): seq<MemoryHit> {
    Scored(Matching(d, userId, None), score, minScore)
  }

  lemma {:induction false} ScoredExactly(points: seq<MemoryPoint>, score: MemoryPoint -> Option<real>, minScore: real,
      h: MemoryHit)
    ensures h in Scored(points, score, minScore) <==>
              h.point in points && score(h.point) == Some(h.score) && h.score >= minScore
  {
    if points != [] {
      ScoredExactly(points[1..], score, minScore, h);
      assert h.point in points <==> h.point == points[0] || h.point in points[1..];
    }
  }

  lemma {:induction false} ScoredOnce(points: seq<MemoryPoint>, score: MemoryPoint -> Option<real>, minScore: real,
      h: MemoryHit)
    ensures multiset(Scored(points, score, minScore))[h] <= multiset(points)[h.point]
  {
    if points != [] {
      ScoredOnce(points[1..], score, minScore, h);
      assert points == [points[0]] + points[1..];
      assert multiset(points) == multiset{points[0]} + multiset(points[1..]);
    }
  }

  /** A search is among the user's own points, each with its own score, and none that scores less than the minimum. */
  lemma CandidatesExactly(d: Points, userId: string, score: MemoryPoint -> Option<real>, minScore: real, h: MemoryHit)
    requires PointsOk(d)
    ensures h in Candidates(d, userId, score, minScore) <==>
              && Get(d, h.point.id) == Some(h.point) && h.point.payload.userId == userId
              && score(h.point) == Some(h.score) && h.score >= minScore
    ensures multiset(Candidates(d, userId, score, minScore))[h] <= 1
  {
    ScoredExactly(Matching(d, userId, None), score, minScore, h);
    ScoredOnce(Matching(d, userId, None), score, minScore, h);
    MatchingExactly(d, userId, None, h.point);
  }

  lemma SearchIsPrefix(d: Points, userId: string, score: MemoryPoint -> Option<real>, k: int, minScore: real)
    ensures SearchHits(d, userId, score, k, minScore)
         == FirstOnes(SortBy(Candidates(d, userId, score, minScore), BestFirst), if k < 0 then 0 else k)
  {
  }

  /** Without decay the retrieved hits are a top-k of the user's points by score. */
  lemma SearchIsTopK(d: Points, userId: string, score: MemoryPoint -> Option<real>, k: nat, minScore: real)
    ensures IsTopK(SearchHits(d, userId, score, k, minScore), Candidates(d, userId, score, minScore), k)
  {
    SearchIsPrefix(d, userId, score, k, minScore);
    SortedPrefixIsTopK(Candidates(d, userId, score, minScore), k);
  }

  /** So are the hits that a retrieval without decay returns. */
  lemma PlainRetrievalIsTopK(d: Points, userId: string, score: MemoryPoint -> Option<real>, k: nat, minScore: real,
      factor: real -> real, now: real)
    ensures IsTopK(Retrieved(d, userId, score, k, minScore, false, factor, now),
                   Candidates(d, userId, score, minScore), k)
  {
    hide IsTopK, SearchHits, Candidates;
    SearchIsTopK(d, userId, score, k, minScore);
  }

  // ---- Fading a sorted list ----

  lemma {:induction false} FadeInserted(x: MemoryHit, s: seq<MemoryHit>, factor: real -> real, now: real)
    ensures multiset(FadeAll(InsertBy(x, s, BestFirst), factor, now))
              == multiset{Faded(x, factor, now)} + multiset(FadeAll(s, factor, now))
  {
    if s == [] || BestFirst(x) <= BestFirst(s[0]) {
      assert FadeAll([x] + s, factor, now) == [Faded(x, factor, now)] + FadeAll(s, factor, now);
    } else {
      FadeInserted(x, s[1..], factor, now);
      FadeFirst(s, factor, now);
      FadeFirst([s[0]] + InsertBy(x, s[1..], BestFirst), factor, now);
      assert ([s[0]] + InsertBy(x, s[1..], BestFirst))[1..] == InsertBy(x, s[1..], BestFirst);
    }
  }

  lemma FadeFirst(s: seq<MemoryHit>, factor: real -> real, now: real)
    requires s != []
    ensures FadeAll(s, factor, now) == [Faded(s[0], factor, now)] + FadeAll(s[1..], factor, now)
  {
  }

  lemma {:induction false} FadeSorted(s: seq<MemoryHit>, factor: real -> real, now: real)
    ensures multiset(FadeAll(SortBy(s, BestFirst), factor, now)) == multiset(FadeAll(s, factor, now))
  {
    if s != [] {
      FadeSorted(s[1..], factor, now);
      FadeInserted(s[0], SortBy(s[1..], BestFirst), factor, now);
      FadeFirst(s, factor, now);
    }
  }

  // ---- The certificate ----

  /**
   What the hits themselves show: fewer than 2k were fetched, or the k-th faded score is at least the smallest score
   fetched.
   */
  predicate Certified(fetched: seq<MemoryHit>, result: seq<MemoryHit>, k: nat) {
    || k == 0
    || |fetched| < 2 * k
    || (|result| >= k && result[k - 1].score >= fetched[|fetched| - 1].score)
  }

  ghost predicate NotNegative(hits: seq<MemoryHit>) {
    forall i :: 0 <= i < |hits| ==> hits[i].score >= 0.0
  }

  lemma FadedIsLess(h: MemoryHit, factor: real -> real, now: real)
    requires Fades(factor) && h.score >= 0.0
    ensures Faded(h, factor, now).score <= h.score
  {
    if h.point.payload.ts.Some? {
      var f := factor(AgeDays(h.point.payload.ts.value, now));
      assert 0.0 <= f <= 1.0;
      assert h.score * (1.0 - f) >= 0.0;
    }
  }

  lemma RankedNotNegative(s: seq<MemoryHit>, all: seq<MemoryHit>)
    requires multiset(s) == multiset(all) && NotNegative(all)
    ensures NotNegative(s)
  {
    forall i | 0 <= i < |s| ensures s[i].score >= 0.0 {
      assert s[i] in multiset(all);
      assert s[i] in all;
    }
  }

  /** What was not fetched scores no more, once faded, than the k-th of what was. */
  lemma DroppedStayBelow(s: seq<MemoryHit>, n: nat, result: seq<MemoryHit>, factor: real -> real, now: real)
    requires Fades(factor) && NotNegative(s) && SortedBy(s, BestFirst) && 0 < n <= |s|
    requires result != [] && SortedBy(result, BestFirst) && s[n - 1].score <= result[|result| - 1].score
    ensures NoneAbove(multiset(FadeAll(s[n..], factor, now)), result)
  {
    var more, k := FadeAll(s[n..], factor, now), |result|;
    forall x: MemoryHit, i: int | x in multiset(more) && 0 <= i < k ensures x.score <= result[i].score {
      var j :| 0 <= j < |more| && more[j] == x;
      FadedIsLess(s[n + j], factor, now);
      assert BestFirst(s[n - 1]) <= BestFirst(s[n + j]);
      assert i < k - 1 ==> BestFirst(result[i]) <= BestFirst(result[k - 1]);
    }
  }

  lemma FadePrefix(s: seq<MemoryHit>, n: nat, factor: real -> real, now: real)
    requires n <= |s|
    ensures FadeAll(s, factor, now) == FadeAll(s[..n], factor, now) + FadeAll(s[n..], factor, now)
  {
  }

  lemma MoreBelow(result: seq<MemoryHit>, some: seq<MemoryHit>, more: seq<MemoryHit>, all: seq<MemoryHit>, k: nat)
    requires IsTopK(result, some, k) && multiset(all) == multiset(some) + multiset(more)
    requires more == [] || (|result| == k && NoneAbove(multiset(more), result))
    ensures IsTopK(result, all, k)
  {
    assert |multiset(all)| == |all| && |multiset(some)| == |some| && |multiset(more)| == |more|;
    forall x, i | x in multiset(all) - multiset(result) && 0 <= i < |result| ensures x.score <= result[i].score {
      if x !in multiset(more) {
        assert x in multiset(some) - multiset(result);
      }
    }
  }

  lemma RankedCertificate(s: seq<MemoryHit>, n: nat, all: seq<MemoryHit>, k: nat, factor: real -> real, now: real)
    requires Fades(factor) && NotNegative(s) && SortedBy(s, BestFirst)
    requires multiset(FadeAll(s, factor, now)) == multiset(FadeAll(all, factor, now))
    requires n == (if 2 * k < |s| then 2 * k else |s|) && Certified(s[..n], Reranked(s[..n], k, factor, now), k)
    ensures IsTopK(Reranked(s[..n], k, factor, now), FadeAll(all, factor, now), k)
  {
    hide IsTopK, NoneAbove, Fades, NotNegative, SortedBy, Reranked, FadeAll;
    var some, more := FadeAll(s[..n], factor, now), FadeAll(s[n..], factor, now);
    var result := Reranked(s[..n], k, factor, now);
    RerankedIsTopK(s[..n], k, factor, now);
    FadePrefix(s, n, factor, now);
    if k == 0 {
      NothingAbove(multiset(more), result);
    } else if n < |s| {
      DroppedStayBelow(s, n, result, factor, now);
    }
    MoreBelow(result, some, more, FadeAll(all, factor, now), k);
  }

  lemma NothingAbove(rest: multiset<MemoryHit>, result: seq<MemoryHit>)
    requires result == []
    ensures NoneAbove(rest, result)
  {
  }

  lemma RerankedIsTopK(fetched: seq<MemoryHit>, k: nat, factor: real -> real, now: real)
    ensures var result := Reranked(fetched, k, factor, now);
            && IsTopK(result, FadeAll(fetched, factor, now), k)
            && SortedBy(result, BestFirst)
            && |result| == if k < |fetched| then k else |fetched|
  {
    hide NoneAbove, SortedBy, SortBy, FirstOnes;
    SortedPrefixIsTopK(FadeAll(fetched, factor, now), k);
  }

  /** Ranking the 2k best by faded score gives a true top-k of all hits whenever the certificate holds. */
  lemma CertificateHolds(all: seq<MemoryHit>, k: nat, factor: real -> real, now: real)
    requires Fades(factor) && NotNegative(all)
    ensures var fetched := FirstOnes(SortBy(all, BestFirst), 2 * k);
            var result := Reranked(fetched, k, factor, now);
            Certified(fetched, result, k) ==> IsTopK(result, FadeAll(all, factor, now), k)
  {
    hide IsTopK, Fades, NotNegative, SortedBy, SortBy, FirstOnes, Certified, Reranked;
    var s := SortBy(all, BestFirst);
    SortBySorts(all, BestFirst);
    RankedNotNegative(s, all);
    FadeSorted(all, factor, now);
    FirstIsPrefix(s, 2 * k);
    var fetched := FirstOnes(s, 2 * k);
    if Certified(fetched, Reranked(fetched, k, factor, now), k) {
      RankedCertificate(s, |fetched|, all, k, factor, now);
    }
  }

  lemma {:induction false} ScoredAbove(points: seq<MemoryPoint>, score: MemoryPoint -> Option<real>, minScore: real)
    ensures forall i :: 0 <= i < |Scored(points, score, minScore)| ==>
              Scored(points, score, minScore)[i].score >= minScore
    ensures forall i :: 0 <= i < |Scored(points, score, minScore)| ==>
              Scored(points, score, minScore)[i].point in points
  {
    if points != [] {
      ScoredAbove(points[1..], score, minScore);
    }
  }

  /**
   The retrieved hits are the k best by faded score of everything the user has that scores at least the minimum,
   whenever the certificate holds.
   */
  lemma RetrievalCertificate(d: Points, userId: string, score: MemoryPoint -> Option<real>, k: nat, minScore: real,
      factor: real -> real, now: real)
    requires Fades(factor) && minScore >= 0.0
    ensures var fetched := SearchHits(d, userId, score, k * 2, minScore);
            var hits := Retrieved(d, userId, score, k, minScore, true, factor, now);
            Certified(fetched, hits, k) ==>
                IsTopK(hits, FadeAll(Candidates(d, userId, score, minScore), factor, now), k)
  {
    SearchIsPrefix(d, userId, score, k * 2, minScore);
    ScoredAbove(Matching(d, userId, None), score, minScore);
    CertificateHolds(Candidates(d, userId, score, minScore), k, factor, now);
  }

  // ---- The certificate cannot be weakened ----

  ghost predicate Splits(s: seq<MemoryHit>, a: seq<MemoryHit>, b: seq<MemoryHit>, key: real) {
    && s == a + b
    && (forall i :: 0 <= i < |a| ==> BestFirst(a[i]) <= key)
    && (forall i :: 0 <= i < |b| ==> key < BestFirst(b[i]))
  }

  lemma InsertBehind(x: MemoryHit, q: MemoryHit, b: seq<MemoryHit>) returns (a': seq<MemoryHit>, b': seq<MemoryHit>)
    requires forall i :: 0 <= i < |b| ==> BestFirst(q) < BestFirst(b[i])
    ensures Splits(InsertBy(x, b, BestFirst), a', b', BestFirst(q))
    ensures InsertBy(x, [q] + b, BestFirst) == a' + [q] + b'
  {
    if BestFirst(x) <= BestFirst(q) {
      a', b' := [x], b;
      assert [x] + ([q] + b) == a' + [q] + b';
    } else {
      a', b' := [], InsertBy(x, b, BestFirst);
      InsertByContents(x, b, BestFirst);
      assert ([q] + b)[1..] == b;
      assert forall y :: y in b ==> BestFirst(q) < BestFirst(y);
      assert a' + [q] + b' == [q] + b';
    }
  }

  lemma InsertFirst(x: MemoryHit, a: seq<MemoryHit>, b: seq<MemoryHit>)
    requires a != []
    ensures InsertBy(x, a + b, BestFirst) ==
              if BestFirst(x) <= BestFirst(a[0]) then ([x] + a) + b else [a[0]] + InsertBy(x, a[1..] + b, BestFirst)
  {
    assert (a + b)[1..] == a[1..] + b;
    assert [x] + (a + b) == ([x] + a) + b;
  }

  lemma {:induction false} InsertInto(x: MemoryHit, a: seq<MemoryHit>, q: MemoryHit, b: seq<MemoryHit>)
      returns (a': seq<MemoryHit>, b': seq<MemoryHit>)
    requires forall i :: 0 <= i < |a| ==> BestFirst(a[i]) <= BestFirst(q)
    requires forall i :: 0 <= i < |b| ==> BestFirst(q) < BestFirst(b[i])
    ensures Splits(InsertBy(x, a + b, BestFirst), a', b', BestFirst(q))
    ensures InsertBy(x, a + ([q] + b), BestFirst) == a' + [q] + b'
  {
    hide InsertBy;
    if a == [] {
      assert a + b == b && a + ([q] + b) == [q] + b;
      a', b' := InsertBehind(x, q, b);
    } else {
      InsertFirst(x, a, b);
      InsertFirst(x, a, [q] + b);
      if BestFirst(x) <= BestFirst(a[0]) {
        a', b' := [x] + a, b;
        assert a' + ([q] + b) == a' + [q] + b';
      } else {
        var front, back := InsertInto(x, a[1..], q, b);
        a', b' := [a[0]] + front, back;
        assert a' + b' == [a[0]] + (front + back) && a' + [q] + b' == [a[0]] + (front + [q] + back);
      }
    }
  }

  /** A hit that comes last is sorted behind everything that scores at least as much. */
  lemma {:induction false} SortWithLast(s: seq<MemoryHit>, q: MemoryHit) returns (a: seq<MemoryHit>, b: seq<MemoryHit>)
    ensures Splits(SortBy(s, BestFirst), a, b, BestFirst(q))
    ensures SortBy(s + [q], BestFirst) == a + [q] + b
  {
    if s == [] {
      a, b := [], [];
      assert s + [q] == [q];
    } else {
      var front, back := SortWithLast(s[1..], q);
      assert (s + [q])[1..] == s[1..] + [q];
      assert front + [q] + back == front + ([q] + back);
      a, b := InsertInto(s[0], front, q, back);
    }
  }

  lemma SplitAt(s: seq<MemoryHit>, a: seq<MemoryHit>, b: seq<MemoryHit>, key: real, i: nat)
    requires Splits(s, a, b, key) && |a| <= i < |s|
    ensures key < BestFirst(s[i])
  {
    assert s[i] == b[i - |a|];
  }

  /** One more hit that scores as much as the last one fetched is not fetched. */
  lemma NotFetched(all: seq<MemoryHit>, n: nat, q: MemoryHit)
    requires 0 < n <= |SortBy(all, BestFirst)| && q.score == SortBy(all, BestFirst)[n - 1].score
    ensures FirstOnes(SortBy(all + [q], BestFirst), n) == FirstOnes(SortBy(all, BestFirst), n)
  {
    hide Splits, SortBy;
    var a, b := SortWithLast(all, q);
    var s := SortBy(all, BestFirst);
    assert s == a + b by { SplitIs(s, a, b, BestFirst(q)); }
    if |a| < n {
      SplitAt(s, a, b, BestFirst(q), n - 1);
    } else {
      assert (a + [q] + b)[..n] == a[..n] == (a + b)[..n];
    }
  }

  lemma SplitIs(s: seq<MemoryHit>, a: seq<MemoryHit>, b: seq<MemoryHit>, key: real)
    requires Splits(s, a, b, key)
    ensures s == a + b
  {
  }

  ghost predicate HasPoint(s: seq<MemoryHit>, p: MemoryPoint) {
    exists i :: 0 <= i < |s| && s[i].point == p
  }

  lemma PointOfFirst(s: seq<MemoryHit>, n: nat, p: MemoryPoint)
    ensures HasPoint(FirstOnes(s, n), p) ==> HasPoint(s, p)
  {
    var m := if n < |s| then n else |s|;
    assert FirstOnes(s, n) == s[..m];
    assert forall i :: 0 <= i < m ==> s[..m][i] == s[i];
  }

  lemma PointOfSorted(s: seq<MemoryHit>, p: MemoryPoint)
    ensures HasPoint(SortBy(s, BestFirst), p) ==> HasPoint(s, p)
  {
    hide SortBy;
    var t := SortBy(s, BestFirst);
    SortBySorts(s, BestFirst);
    if HasPoint(t, p) {
      var i :| 0 <= i < |t| && t[i].point == p;
      SameMembers(t, s, t[i]);
      var j :| 0 <= j < |s| && s[j] == t[i];
    }
  }

  lemma PointOfFaded(s: seq<MemoryHit>, factor: real -> real, now: real, p: MemoryPoint)
    ensures HasPoint(FadeAll(s, factor, now), p) ==> HasPoint(s, p)
  {
    var t := FadeAll(s, factor, now);
    if HasPoint(t, p) {
      var i :| 0 <= i < |t| && t[i].point == p;
      assert s[i].point == p;
    }
  }

  lemma NotAmong(all: seq<MemoryHit>, k: nat, factor: real -> real, now: real, q: MemoryHit)
    requires !HasPoint(all, q.point)
    ensures q !in Reranked(FirstOnes(SortBy(all, BestFirst), 2 * k), k, factor, now)
  {
    hide SortBy, FirstOnes;
    var fetched := FirstOnes(SortBy(all, BestFirst), 2 * k);
    PointOfSorted(all, q.point);
    PointOfFirst(SortBy(all, BestFirst), 2 * k, q.point);
    PointOfFaded(fetched, factor, now, q.point);
    PointOfSorted(FadeAll(fetched, factor, now), q.point);
    PointOfFirst(SortBy(FadeAll(fetched, factor, now), BestFirst), k, q.point);
  }

  lemma BetterLeftOut(result: seq<MemoryHit>, candidates: seq<MemoryHit>, k: nat, q: MemoryHit)
    requires q in candidates && q !in result && result != [] && result[|result| - 1].score < q.score
    ensures !IsTopK(result, candidates, k)
  {
    assert q in multiset(candidates) && q !in multiset(result);
    assert q in multiset(candidates) - multiset(result);
  }

  /**
   Where the certificate fails, no rule that looks only at the hits could do better: with one more unfaded hit that
   scores as much as the last one fetched, the same hits are fetched and returned, and they are not a top-k.
   */
  lemma CertificateIsTight(all: seq<MemoryHit>, k: nat, factor: real -> real, now: real, q: MemoryHit)
    requires var fetched := FirstOnes(SortBy(all, BestFirst), 2 * k);
             && !Certified(fetched, Reranked(fetched, k, factor, now), k)
             && q.score == fetched[|fetched| - 1].score
    requires q.point.payload.ts == None && !HasPoint(all, q.point)
    ensures var fetched := FirstOnes(SortBy(all, BestFirst), 2 * k);
            && FirstOnes(SortBy(all + [q], BestFirst), 2 * k) == fetched
            && !IsTopK(Reranked(fetched, k, factor, now), FadeAll(all + [q], factor, now), k)
  {
    hide SortBy, IsTopK, HasPoint, SortedBy, Reranked;
    var s := SortBy(all, BestFirst);
    var fetched := FirstOnes(s, 2 * k);
    var result := Reranked(fetched, k, factor, now);
    assert fetched == s[..2 * k];
    NotFetched(all, 2 * k, q);
    RerankedIsTopK(fetched, k, factor, now);
    NotAmong(all, k, factor, now, q);
    var faded := FadeAll(all + [q], factor, now);
    assert faded[|all|] == q;
    BetterLeftOut(result, faded, k, q);
  }

  // ---- The same in the store ----

  lemma {:induction false} MatchingLast(d: Points, userId: string, q: MemoryPoint)
    requires q.payload.userId == userId
    ensures Matching(d + [(q.id, q)], userId, None) == Matching(d, userId, None) + [q]
  {
    if d == [] {
      assert d + [(q.id, q)] == [(q.id, q)];
      assert Matching([(q.id, q)][1..], userId, None) == [];
    } else {
      assert (d + [(q.id, q)])[1..] == d[1..] + [(q.id, q)];
      MatchingLast(d[1..], userId, q);
    }
  }

  lemma {:induction false} ScoredLast(points: seq<MemoryPoint>, q: MemoryPoint, score: MemoryPoint -> Option<real>,
      minScore: real)
    requires score(q).Some? && score(q).value >= minScore
    ensures Scored(points + [q], score, minScore) == Scored(points, score, minScore) + [MemoryHit(q, score(q).value)]
  {
    if points == [] {
      assert points + [q] == [q];
      assert Scored([q][1..], score, minScore) == [];
    } else {
      assert (points + [q])[1..] == points[1..] + [q];
      ScoredLast(points[1..], q, score, minScore);
    }
  }

  /** Where the certificate fails for a retrieval, adding one point to the store makes the very same hits wrong. */
  lemma RetrievalIsTight(d: Points, userId: string, score: MemoryPoint -> Option<real>, k: nat, minScore: real,
      factor: real -> real, now: real, q: MemoryPoint)
    requires PointsOk(d) && !Has(d, q.id) && q.payload.userId == userId && q.payload.ts == None
    requires var fetched := SearchHits(d, userId, score, k * 2, minScore);
             && !Certified(fetched, Retrieved(d, userId, score, k, minScore, true, factor, now), k)
             && score(q) == Some(fetched[|fetched| - 1].score) && score(q).value >= minScore
    ensures var d' := AddAll(d, [q]);
            && Retrieved(d', userId, score, k, minScore, true, factor, now)
                == Retrieved(d, userId, score, k, minScore, true, factor, now)
            && !IsTopK(Retrieved(d', userId, score, k, minScore, true, factor, now),
                       FadeAll(Candidates(d', userId, score, minScore), factor, now), k)
  {
    hide SortBy, IsTopK, SortedBy, Reranked, PointsOk, SearchHits, Certified;
    var all := Candidates(d, userId, score, minScore);
    AddFresh(d, q);
    MatchingLast(d, userId, q);
    ScoredLast(Matching(d, userId, None), q, score, minScore);
    SearchIsPrefix(d, userId, score, k * 2, minScore);
    SearchIsPrefix(AddAll(d, [q]), userId, score, k * 2, minScore);
    NotYetScored(d, userId, score, minScore, q);
    CertificateIsTight(all, k, factor, now, MemoryHit(q, score(q).value));
  }

  lemma NotYetScored(d: Points, userId: string, score: MemoryPoint -> Option<real>, minScore: real, q: MemoryPoint)
    requires PointsOk(d) && !Has(d, q.id)
    ensures !HasPoint(Candidates(d, userId, score, minScore), q)
  {
    ScoredAbove(Matching(d, userId, None), score, minScore);
    MatchingExactly(d, userId, None, q);
  }

  // ---- As time passes ----

  /** exp(-rate * age) for a positive rate: ages add up, and every further age weighs less but always something. */
  ghost predicate Exponential(factor: real -> real) {
    && factor(0.0) == 1.0
    && (forall a: real, b: real :: a >= 0.0 && b >= 0.0 ==> factor(a + b) == factor(a) * factor(b))
    && (forall a: real, b: real :: 0.0 <= a < b ==> 0.0 < factor(b) < factor(a))
  }

  predicate Scaled(x: MemoryHit, y: MemoryHit, c: real) {
    y.point == x.point && y.score == x.score * c
  }

  /** The same hits in the same order, with every score multiplied by c. */
  predicate AllScaled(a: seq<MemoryHit>, b: seq<MemoryHit>, c: real) {
    |b| == |a| && forall i :: 0 <= i < |a| ==> Scaled(a[i], b[i], c)
  }

  lemma ScaledOrder(x: MemoryHit, x': MemoryHit, y: MemoryHit, y': MemoryHit, c: real)
    requires c > 0.0 && Scaled(x, x', c) && Scaled(y, y', c)
    ensures BestFirst(x) <= BestFirst(y) <==> BestFirst(x') <= BestFirst(y')
  {
    assert x'.score - y'.score == (x.score - y.score) * c;
  }

  lemma {:induction false} InsertScaled(x: MemoryHit, x': MemoryHit, a: seq<MemoryHit>, b: seq<MemoryHit>, c: real)
    requires c > 0.0 && Scaled(x, x', c) && AllScaled(a, b, c)
    ensures AllScaled(InsertBy(x, a, BestFirst), InsertBy(x', b, BestFirst), c)
  {
    hide Scaled;
    if a == [] {
    } else {
      ScaledOrder(x, x', a[0], b[0], c);
      InsertScaled(x, x', a[1..], b[1..], c);
    }
  }

  lemma {:induction false} SortScaled(a: seq<MemoryHit>, b: seq<MemoryHit>, c: real)
    requires c > 0.0 && AllScaled(a, b, c)
    ensures AllScaled(SortBy(a, BestFirst), SortBy(b, BestFirst), c)
  {
    hide Scaled;
    if a == [] {
    } else {
      SortScaled(a[1..], b[1..], c);
      InsertScaled(a[0], b[0], SortBy(a[1..], BestFirst), SortBy(b[1..], BestFirst), c);
    }
  }

  /** The hit's point has a time, and not one in the future. */
  predicate Past(h: MemoryHit, now: real) {
    h.point.payload.ts.Some? && h.point.payload.ts.value <= now
  }

  lemma FadesOn(h: MemoryHit, factor: real -> real, now: real, later: real)
    requires Exponential(factor) && Past(h, now) && now <= later
    ensures Scaled(Faded(h, factor, now), Faded(h, factor, later), factor((later - now) / 86400.0))
  {
    hide Exponential, AgeDays;
    var ts := h.point.payload.ts.value;
    var before, since := AgeDays(ts, now), (later - now) / 86400.0;
    AgesAdd(ts, now, later);
    Compounds(factor, before, since);
    Reassociate(h.score, factor(before), factor(since));
  }

  lemma AgesAdd(ts: real, now: real, later: real)
    requires ts <= now <= later
    ensures AgeDays(ts, later) == AgeDays(ts, now) + (later - now) / 86400.0
    ensures AgeDays(ts, now) >= 0.0 && (later - now) / 86400.0 >= 0.0
  {
  }

  lemma Compounds(factor: real -> real, a: real, b: real)
    requires Exponential(factor) && a >= 0.0 && b >= 0.0
    ensures factor(a + b) == factor(a) * factor(b)
  {
  }

  lemma Reassociate(x: real, y: real, z: real)
    ensures x * (y * z) == x * y * z
  {
  }

  lemma FetchedAreStored(d: Points, userId: string, score: MemoryPoint -> Option<real>, k: int, minScore: real,
      h: MemoryHit)
    requires h in SearchHits(d, userId, score, k, minScore)
    ensures h.point in Matching(d, userId, None)
  {
    var found := Scored(Matching(d, userId, None), score, minScore);
    SortBySorts(found, BestFirst);
    SameMembers(SortBy(found, BestFirst), found, h);
    ScoredAbove(Matching(d, userId, None), score, minScore);
  }

  lemma FirstScaled(a: seq<MemoryHit>, b: seq<MemoryHit>, k: int, c: real)
    requires AllScaled(a, b, c)
    ensures AllScaled(FirstOnes(a, k), FirstOnes(b, k), c)
  {
  }

  ghost predicate AllPast(points: seq<MemoryPoint>, now: real) {
    forall p :: p in points ==> p.payload.ts.Some? && p.payload.ts.value <= now
  }

  /**
   Decay ages all memories alike: while nothing is written, a later retrieval with the same query finds the same points
   in the same order, and every score has shrunk by the factor of the days since.
   */
  lemma RetrievalIsTimeless(d: Points, userId: string, score: MemoryPoint -> Option<real>, topK: int, minScore: real,
      factor: real -> real, now: real, later: real)
    requires Exponential(factor) && now <= later && AllPast(Matching(d, userId, None), now)
    ensures AllScaled(Retrieved(d, userId, score, topK, minScore, true, factor, now),
                      Retrieved(d, userId, score, topK, minScore, true, factor, later),
                      factor((later - now) / 86400.0))
  {
    hide SortBy, SearchHits, Scaled, Exponential, FirstOnes, Faded;
    var fetched := SearchHits(d, userId, score, topK * 2, minScore);
    var c := factor((later - now) / 86400.0);
    var early, late := FadeAll(fetched, factor, now), FadeAll(fetched, factor, later);
    forall i | 0 <= i < |fetched| ensures Scaled(early[i], late[i], c) {
      FetchedAreStored(d, userId, score, topK * 2, minScore, fetched[i]);
      FadesOn(fetched[i], factor, now, later);
    }
    FactorPositive(factor, (later - now) / 86400.0);
    SortScaled(early, late, c);
    FirstScaled(SortBy(early, BestFirst), SortBy(late, BestFirst), topK, c);
  }

  lemma FactorPositive(factor: real -> real, age: real)
    requires Exponential(factor) && age >= 0.0
    ensures factor(age) > 0.0
  {
    assert age > 0.0 ==> 0.0 < factor(age) < factor(0.0);
  }

  /**
   Of two hits with one positive score the one whose point is older is ranked lower, unless both lie in the future;
   then, and only then, both keep the score.
   */
  lemma OlderRanksLower(h: MemoryHit, older: MemoryHit, factor: real -> real, now: real)
    requires Exponential(factor) && h.score == older.score > 0.0
    requires h.point.payload.ts.Some? && older.point.payload.ts.Some?
    requires older.point.payload.ts.value < h.point.payload.ts.value
    ensures Faded(older, factor, now).score < Faded(h, factor, now).score <==> older.point.payload.ts.value < now
    ensures Faded(older, factor, now).score == older.score <==> older.point.payload.ts.value >= now
  {
    hide Exponential;
    var age, elder := AgeDays(h.point.payload.ts.value, now), AgeDays(older.point.payload.ts.value, now);
    if older.point.payload.ts.value < now {
      WeighsLess(factor, age, elder);
      WeighsLess(factor, 0.0, elder);
      Shrinks(h.score, factor(elder), factor(age));
      Shrinks(h.score, factor(elder), factor(0.0));
    }
    assert factor(0.0) == 1.0 by { NoAge(factor); }
  }

  lemma NoAge(factor: real -> real)
    requires Exponential(factor)
    ensures factor(0.0) == 1.0
  {
  }

  lemma WeighsLess(factor: real -> real, age: real, elder: real)
    requires Exponential(factor) && 0.0 <= age < elder
    ensures factor(elder) < factor(age)
  {
  }

  lemma Shrinks(score: real, less: real, more: real)
    requires score > 0.0 && less < more
    ensures score * less < score * more
  {
  }
}
