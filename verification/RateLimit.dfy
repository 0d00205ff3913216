/** tutor/ratelimit.py: the per-key limiter, and what it admits over any trace of calls. */
module RateLimit {
  import opened Builtins

  /** A refusal remembers the oldest hit it counted. `Broken` is the IndexError of a limiter built with
      a limit below one. */
  datatype Decision = Admitted | Refused(oldest: real) | Broken

  /** The Retry-After header of a refusal. */
  function RetryAfter(window: real, now: real, oldest: real): int {
    Trunc(window - (now - oldest)) + 1
  }

  /** The hits later than the cutoff. */
  function Live(hits: seq<real>, cutoff: real): seq<real> {
    if hits == [] then []
    else Live(hits[..|hits| - 1], cutoff) + if hits[|hits| - 1] > cutoff then [hits[|hits| - 1]] else []
  }

  function Decide(limit: int, live: seq<real>): Decision {
    if |live| < limit then Admitted
    else if live == [] then Broken
    else Refused(live[0])
  }

  type Table = map<string, seq<real>>

  function Row(hits: Table, key: string): seq<real> {
    if key in hits then hits[key] else []
  }

  /** A key's hits after a call: the live ones, and the call itself if it is admitted. */
  function Kept(limit: int, window: real, row: seq<real>, now: real): seq<real> {
    var live := Live(row, now - window);
    if |live| < limit then live + [now] else live
  }

  function Checked(limit: int, window: real, hits: Table, key: string, now: real): (Table, Decision) {
    (hits[key := Kept(limit, window, Row(hits, key), now)], Decide(limit, Live(Row(hits, key), now - window)))
  }

  class FixedWindowLimiter {
    const limit: int
    const window: real
    var hits: Table

    constructor (limit: int, window: real)
      ensures this.limit == limit && this.window == window && hits == map[]
    {
      this.limit, this.window, hits := limit, window, map[];
    }

    method Check(key: string, now: real) returns (d: Decision, retryAfter: int)
      modifies this
      ensures (hits, d) == Checked(limit, window, old(hits), key, now)
      ensures d.Refused? ==> retryAfter == RetryAfter(window, now, d.oldest)
    {
      var row := Row(hits, key);
      var live := [];
      for i := 0 to |row|
        invariant live == Live(row[..i], now - window)
      {
        assert row[..i + 1][..i] == row[..i];
        if row[i] > now - window {
          live := live + [row[i]];
        }
      }
      assert row[..|row|] == row;
      hits := hits[key := live];
      if |live| >= limit {
        if live == [] {
          return Broken, 0;
        }
        return Refused(live[0]), Trunc(window - (now - live[0])) + 1;
      }
      hits := hits[key := hits[key] + [now]];
      assert hits == old(hits)[key := live + [now]];
      d, retryAfter := Admitted, 0;
    }
  }

  // ---------------------------------------------------------------- traces

  datatype Call = Call(key: string, now: real)

  /** A monotonic clock. */
  predicate Clocked(trace: seq<Call>) {
    forall i, j :: 0 <= i <= j < |trace| ==> trace[i].now <= trace[j].now
  }

  /** The limiter's table after a trace. */
  function Hits(limit: int, window: real, trace: seq<Call>): Table {
    if trace == [] then map[]
    else
      var c := trace[|trace| - 1];
      Checked(limit, window, Hits(limit, window, trace[..|trace| - 1]), c.key, c.now).0
  }

  /** Its answer to one more call. */
  function Answer(limit: int, window: real, trace: seq<Call>, c: Call): Decision {
    Checked(limit, window, Hits(limit, window, trace), c.key, c.now).1
  }

  /** The reference: every admitted hit of a key is remembered for ever, and a call is admitted when
      fewer than `limit` of them lie in the window that ends now. */
  function History(limit: int, window: real, trace: seq<Call>, key: string): seq<real> {
    if trace == [] then []
    else
      var c := trace[|trace| - 1];
      var h := History(limit, window, trace[..|trace| - 1], key);
      if c.key == key then Remembered(limit, window, h, c.now) else h
  }

  function Remembered(limit: int, window: real, h: seq<real>, now: real): seq<real> {
    if |Live(h, now - window)| < limit then h + [now] else h
  }

  lemma LiveOfSnoc(hits: seq<real>, t: real, cutoff: real)
    ensures Live(hits + [t], cutoff) == Live(hits, cutoff) + if t > cutoff then [t] else []
  {
    assert (hits + [t])[..|hits|] == hits;
  }

  lemma {:induction false} EvictingTwice(hits: seq<real>, early: real, late: real)
    requires early <= late
    ensures Live(Live(hits, early), late) == Live(hits, late)
  {
    if hits != [] {
      var init, t := hits[..|hits| - 1], hits[|hits| - 1];
      EvictingTwice(init, early, late);
      if t > early {
        LiveOfSnoc(Live(init, early), t, late);
      } else {
        assert Live(hits, early) == Live(init, early) && Live(hits, late) == Live(init, late);
      }
    }
  }

  lemma CheckTouchesOneRow(limit: int, window: real, hits: Table, c: Call, key: string)
    ensures Row(Checked(limit, window, hits, c.key, c.now).0, key)
         == if c.key == key then Kept(limit, window, Row(hits, key), c.now) else Row(hits, key)
  {
  }

  lemma OneCheckIsLossless(limit: int, window: real, row: seq<real>, h: seq<real>, now: real, cutoff: real)
    requires now - window <= cutoff
    requires Live(row, cutoff) == Live(h, cutoff) && Live(row, now - window) == Live(h, now - window)
    ensures Live(Kept(limit, window, row, now), cutoff)
         == Live(Remembered(limit, window, h, now), cutoff)
  {
    var live := Live(row, now - window);
    EvictingTwice(row, now - window, cutoff);
    if |live| < limit {
      assert Kept(limit, window, row, now) == live + [now] && Remembered(limit, window, h, now) == h + [now];
      LiveOfSnoc(live, now, cutoff);
      LiveOfSnoc(h, now, cutoff);
    } else {
      assert Kept(limit, window, row, now) == live && Remembered(limit, window, h, now) == h;
    }
  }

  /** The clock has not passed `now`. */
  predicate UpTo(trace: seq<Call>, now: real) {
    Clocked(trace) && (trace != [] ==> trace[|trace| - 1].now <= now)
  }

  lemma InitIsUpTo(trace: seq<Call>)
    requires Clocked(trace) && trace != []
    ensures UpTo(trace[..|trace| - 1], trace[|trace| - 1].now)
  {
  }

  lemma HistorySnoc(limit: int, window: real, trace: seq<Call>, key: string)
    requires trace != []
    ensures var c := trace[|trace| - 1]; var h := History(limit, window, trace[..|trace| - 1], key);
            History(limit, window, trace, key) == if c.key == key then Remembered(limit, window, h, c.now) else h
  {
  }

  lemma RowSnoc(limit: int, window: real, trace: seq<Call>, key: string)
    requires trace != []
    ensures var c := trace[|trace| - 1]; var row := Row(Hits(limit, window, trace[..|trace| - 1]), key);
            Row(Hits(limit, window, trace), key) == if c.key == key then Kept(limit, window, row, c.now) else row
  {
    CheckTouchesOneRow(limit, window, Hits(limit, window, trace[..|trace| - 1]), trace[|trace| - 1], key);
  }

  /** Eviction loses nothing that a later call could still count. */
  lemma {:induction false} EvictionIsLossless(limit: int, window: real, trace: seq<Call>, key: string, cutoff: real)
    requires UpTo(trace, cutoff + window)
    ensures Live(Row(Hits(limit, window, trace), key), cutoff) == Live(History(limit, window, trace, key), cutoff)
  {
    if trace != [] {
      var before, c := trace[..|trace| - 1], trace[|trace| - 1];
      InitIsUpTo(trace);
      EvictionIsLossless(limit, window, before, key, cutoff);
      RowSnoc(limit, window, trace, key);
      HistorySnoc(limit, window, trace, key);
      if c.key == key {
        EvictionIsLossless(limit, window, before, key, c.now - window);
        OneCheckIsLossless(limit, window, Row(Hits(limit, window, before), key), History(limit, window, before, key), c.now, cutoff);
      }
    }
  }

  /** The limiter with its eviction answers every call as the reference does: it refuses exactly when
      `limit` admitted hits of that key lie in the window. */
  lemma RefusesIffWindowIsFull(limit: int, window: real, trace: seq<Call>, c: Call)
    requires UpTo(trace, c.now) && limit >= 1
    ensures var live := Live(History(limit, window, trace, c.key), c.now - window);
            && Answer(limit, window, trace, c) == Decide(limit, live)
            && (Answer(limit, window, trace, c) == Admitted <==> |live| < limit)
            && (Answer(limit, window, trace, c).Refused? <==> |live| >= limit)
  {
    EvictionIsLossless(limit, window, trace, c.key, c.now - window);
  }

  /** The times at which calls of a key were admitted over a trace. */
  function AdmittedTimes(limit: int, window: real, trace: seq<Call>, key: string): seq<real> {
    if trace == [] then []
    else
      var before, c := trace[..|trace| - 1], trace[|trace| - 1];
      AdmittedTimes(limit, window, before, key)
      + if c.key == key && Answer(limit, window, before, c) == Admitted then [c.now] else []
  }

  /** The reference remembers exactly the calls that the limiter admits. */
  lemma {:induction false} HistoryIsAdmitted(limit: int, window: real, trace: seq<Call>, key: string)
    requires Clocked(trace) && limit >= 1
    ensures AdmittedTimes(limit, window, trace, key) == History(limit, window, trace, key)
  {
    if trace != [] {
      var before, c := trace[..|trace| - 1], trace[|trace| - 1];
      InitIsUpTo(trace);
      HistoryIsAdmitted(limit, window, before, key);
      HistorySnoc(limit, window, trace, key);
      if c.key == key { RefusesIffWindowIsFull(limit, window, before, c); }
    }
  }

  // ---------------------------------------------------------------- the window bound

  predicate Rising(hits: seq<real>) {
    forall i, j :: 0 <= i <= j < |hits| ==> hits[i] <= hits[j]
  }

  lemma {:induction false} HistoryRises(limit: int, window: real, trace: seq<Call>, key: string)
    requires Clocked(trace)
    ensures Rising(History(limit, window, trace, key))
    ensures forall i :: 0 <= i < |History(limit, window, trace, key)| ==> History(limit, window, trace, key)[i] <= trace[|trace| - 1].now
    ensures History(limit, window, trace, key) != [] ==> trace != []
  {
    if trace != [] {
      HistoryRises(limit, window, trace[..|trace| - 1], key);
    }
  }

  /** Of a rising list the live part is the tail. */
  lemma {:induction false} LiveIsTail(hits: seq<real>, cutoff: real)
    requires Rising(hits)
    ensures |Live(hits, cutoff)| <= |hits|
    ensures var k := |hits| - |Live(hits, cutoff)|;
            && Live(hits, cutoff) == hits[k..]
            && (forall i :: 0 <= i < k ==> hits[i] <= cutoff)
            && (forall i :: k <= i < |hits| ==> hits[i] > cutoff)
  {
    if hits != [] {
      LiveIsTail(hits[..|hits| - 1], cutoff);
    }
  }

  ghost predicate Spaced(hits: seq<real>, limit: int, window: real) {
    forall i, j :: 0 <= i < j < |hits| && j == i + limit ==> hits[j] >= hits[i] + window
  }

  /** The k-th hit admitted after another is at least a window later, where k is the limit. */
  lemma {:induction false} HitsAreSpaced(limit: int, window: real, trace: seq<Call>, key: string)
    requires Clocked(trace) && limit >= 1
    ensures Spaced(History(limit, window, trace, key), limit, window)
  {
    if trace != [] {
      var before, c := trace[..|trace| - 1], trace[|trace| - 1];
      HitsAreSpaced(limit, window, before, key);
      HistoryRises(limit, window, before, key);
      LiveIsTail(History(limit, window, before, key), c.now - window);
    }
  }

  function Indices(hits: seq<real>, from: real, window: real): set<int> {
    set i | 0 <= i < |hits| && from <= hits[i] < from + window
  }

  function Between(lo: int, hi: int): (s: set<int>)
    requires lo <= hi
    ensures forall i :: i in s <==> lo <= i < hi
    ensures |s| == hi - lo
    decreases hi - lo
  {
    if lo == hi then {} else Between(lo, hi - 1) + {hi - 1}
  }

  /** The first hit of a rising list that is not before `from`. */
  function FirstFrom(hits: seq<real>, from: real): (k: nat)
    ensures k <= |hits| && (k < |hits| ==> hits[k] >= from)
    ensures forall i :: 0 <= i < k ==> hits[i] < from
  {
    if hits == [] || hits[0] >= from then 0 else 1 + FirstFrom(hits[1..], from)
  }

  lemma BeyondLimit(hits: seq<real>, limit: int, window: real, lo: nat)
    requires Rising(hits) && Spaced(hits, limit, window) && limit >= 1 && lo < |hits|
    ensures forall i :: lo + limit <= i < |hits| ==> hits[i] >= hits[lo] + window
  {
    if lo + limit < |hits| { assert hits[lo + limit] >= hits[lo] + window; }
  }

  /** For every key and every half-open interval as long as the window, at most `limit` of the calls that
      are admitted fall into it, wherever it starts. */
  lemma {:induction false} AtMostLimitPerWindow(limit: int, window: real, trace: seq<Call>, key: string, from: real)
    requires Clocked(trace) && limit >= 1
    ensures var hits := AdmittedTimes(limit, window, trace, key);
            |set i | 0 <= i < |hits| && from <= hits[i] < from + window| <= limit
  {
    HistoryIsAdmitted(limit, window, trace, key);
    HitsAreSpaced(limit, window, trace, key);
    HistoryRises(limit, window, trace, key);
    var hits := History(limit, window, trace, key);
    FewFromFirst(hits, limit, window, from);
    assert Indices(hits, from, window) == set i | 0 <= i < |hits| && from <= hits[i] < from + window;
  }

  lemma FewFromFirst(hits: seq<real>, limit: int, window: real, from: real)
    requires Rising(hits) && Spaced(hits, limit, window) && limit >= 1
    ensures |Indices(hits, from, window)| <= limit
  {
    var lo := FirstFrom(hits, from);
    if lo < |hits| { BeyondLimit(hits, limit, window, lo); }
    SubsetIsNoLarger(Indices(hits, from, window), Between(lo, lo + limit));
  }

  function ClosedIndices(hits: seq<real>, from: real, window: real): set<int> {
    set i | 0 <= i < |hits| && from <= hits[i] <= from + window
  }

  ghost predicate AWindowApart(hits: seq<real>, limit: int, window: real, from: real, i: int) {
    0 <= i < |hits| && 0 <= i + limit < |hits| && hits[i] == from && hits[i + limit] == from + window
  }

  /** The bound is about half-open intervals. A closed one holds more than `limit` admitted calls if and only
      if two of them, `limit` positions apart, lie at its two ends. */
  lemma {:induction false} ClosedWindowHoldsMoreIff(limit: int, window: real, trace: seq<Call>, key: string, from: real)
    requires Clocked(trace) && limit >= 1
    ensures var hits := AdmittedTimes(limit, window, trace, key);
            |set i | 0 <= i < |hits| && from <= hits[i] <= from + window| > limit
            <==> exists i :: AWindowApart(hits, limit, window, from, i)
  {
    HistoryIsAdmitted(limit, window, trace, key);
    HitsAreSpaced(limit, window, trace, key);
    HistoryRises(limit, window, trace, key);
    var hits := History(limit, window, trace, key);
    MoreInClosedIff(hits, limit, window, from);
    assert ClosedIndices(hits, from, window) == set i | 0 <= i < |hits| && from <= hits[i] <= from + window;
  }

  lemma MoreInClosedIff(hits: seq<real>, limit: int, window: real, from: real)
    requires Rising(hits) && Spaced(hits, limit, window) && limit >= 1
    ensures |ClosedIndices(hits, from, window)| > limit <==> exists i :: AWindowApart(hits, limit, window, from, i)
  {
    var lo := FirstFrom(hits, from);
    if i :| AWindowApart(hits, limit, window, from, i) {
      assert Between(i, i + limit + 1) <= ClosedIndices(hits, from, window);
      SubsetIsNoLarger(Between(i, i + limit + 1), ClosedIndices(hits, from, window));
    } else {
      if lo + limit < |hits| {
        assert hits[lo + limit] >= hits[lo] + window;
        assert !AWindowApart(hits, limit, window, from, lo);
      }
      assert ClosedIndices(hits, from, window) <= Between(lo, lo + limit);
      SubsetIsNoLarger(ClosedIndices(hits, from, window), Between(lo, lo + limit));
    }
  }

  /** And it can. */
  lemma ClosedWindowCanHoldMore()
    ensures AdmittedTimes(1, 60.0, [Call("u", 0.0), Call("u", 60.0)], "u") == [0.0, 60.0]
    ensures |ClosedIndices([0.0, 60.0], 0.0, 60.0)| > 1
  {
    TwoAdmitted();
    TwoInClosed([0.0, 60.0]);
  }

  lemma TwoAdmitted()
    ensures AdmittedTimes(1, 60.0, [Call("u", 0.0), Call("u", 60.0)], "u") == [0.0, 60.0]
  {
    var trace := [Call("u", 0.0), Call("u", 60.0)];
    assert trace[..1] == [Call("u", 0.0)] && trace[..1][..0] == [];
    assert History(1, 60.0, trace[..1], "u") == [0.0];
    assert Live([0.0], 0.0) == Live([0.0][..0], 0.0);
    HistoryIsAdmitted(1, 60.0, trace, "u");
  }

  lemma TwoInClosed(hits: seq<real>)
    requires |hits| == 2 && hits[0] == 0.0 && hits[1] == 60.0
    ensures |ClosedIndices(hits, 0.0, 60.0)| > 1
  {
    assert AWindowApart(hits, 1, 60.0, 0.0, 0);
    MoreInClosedIff(hits, 1, 60.0, 0.0);
  }

  // ---------------------------------------------------------------- keys

  function Only(trace: seq<Call>, key: string): seq<Call> {
    if trace == [] then []
    else
      var c := trace[|trace| - 1];
      Only(trace[..|trace| - 1], key) + if c.key == key then [c] else []
  }

  lemma {:induction false} RowsAreIndependent(limit: int, window: real, trace: seq<Call>, key: string)
    ensures Row(Hits(limit, window, trace), key) == Row(Hits(limit, window, Only(trace, key)), key)
  {
    if trace != [] {
      var before, c := trace[..|trace| - 1], trace[|trace| - 1];
      RowsAreIndependent(limit, window, before, key);
      CheckTouchesOneRow(limit, window, Hits(limit, window, before), c, key);
      if c.key == key {
        assert Only(trace, key) == Only(before, key) + [c];
        assert (Only(before, key) + [c])[..|Only(before, key)|] == Only(before, key);
        CheckTouchesOneRow(limit, window, Hits(limit, window, Only(before, key)), c, key);
      } else {
        assert Only(trace, key) == Only(before, key);
      }
    }
  }

  /** What other keys do never changes an answer. */
  lemma KeysAreIndependent(limit: int, window: real, trace: seq<Call>, c: Call)
    ensures Answer(limit, window, trace, c) == Answer(limit, window, Only(trace, c.key), c)
  {
    RowsAreIndependent(limit, window, trace, c.key);
  }

  // ---------------------------------------------------------------- Retry-After

  lemma {:induction false} QuietKeepsHistory(limit: int, window: real, trace: seq<Call>, quiet: seq<Call>, key: string)
    requires forall i :: 0 <= i < |quiet| ==> quiet[i].key != key
    ensures History(limit, window, trace + quiet, key) == History(limit, window, trace, key)
  {
    if quiet == [] {
      assert trace + quiet == trace;
    } else {
      QuietKeepsHistory(limit, window, trace, quiet[..|quiet| - 1], key);
      assert (trace + quiet)[..|trace + quiet| - 1] == trace + quiet[..|quiet| - 1];
    }
  }

  /** A full window holds exactly `limit` hits. */
  lemma FullWindowIsExact(hits: seq<real>, limit: int, window: real, now: real)
    requires Rising(hits) && Spaced(hits, limit, window) && limit >= 1
    requires forall i :: 0 <= i < |hits| ==> hits[i] <= now
    ensures |Live(hits, now - window)| <= limit
  {
    LiveIsTail(hits, now - window);
    var k := |hits| - |Live(hits, now - window)|;
    if limit < |hits| {
      assert hits[|hits| - 1] >= hits[|hits| - 1 - limit] + window;
    }
  }

  lemma LaterWindow(hits: seq<real>, early: real, late: real)
    requires Rising(hits) && early <= late && Live(hits, early) != []
    ensures Live(hits, early)[0] <= late ==> |Live(hits, late)| < |Live(hits, early)|
    ensures Live(hits, early)[0] > late ==> Live(hits, late) == Live(hits, early)
  {
    LiveIsTail(hits, early);
    LiveIsTail(hits, late);
  }

  /** A refused caller that waits its Retry-After, while its key stays quiet, is admitted; one that
      comes back more than a second earlier is refused. */
  lemma RetryAfterIsHonest(limit: int, window: real, trace: seq<Call>, c: Call, quiet: seq<Call>, later: Call)
    requires limit >= 1 && UpTo(trace, c.now) && UpTo(trace + [c] + quiet, later.now)
    requires Answer(limit, window, trace, c).Refused? && later.key == c.key
    requires forall i :: 0 <= i < |quiet| ==> quiet[i].key != c.key
    ensures var wait := RetryAfter(window, c.now, Answer(limit, window, trace, c).oldest) as real;
            && (later.now >= c.now + wait ==> Answer(limit, window, trace + [c] + quiet, later) == Admitted)
            && (later.now < c.now + wait - 1.0 ==> Answer(limit, window, trace + [c] + quiet, later).Refused?)
  {
    RefusesIffWindowIsFull(limit, window, trace, c);
    RefusalKeepsHistory(limit, window, trace, c, quiet);
    LastIsLater(trace, c, quiet, later);
    WaitIsHonest(limit, window, trace, c, trace + [c] + quiet, later);
  }

  lemma WaitIsHonest(limit: int, window: real, trace: seq<Call>, c: Call, full: seq<Call>, later: Call)
    requires limit >= 1 && UpTo(trace, c.now) && UpTo(full, later.now) && c.now <= later.now
    requires Answer(limit, window, trace, c).Refused? && later.key == c.key
    requires History(limit, window, full, c.key) == History(limit, window, trace, c.key)
    ensures var wait := RetryAfter(window, c.now, Answer(limit, window, trace, c).oldest) as real;
            && (later.now >= c.now + wait ==> Answer(limit, window, full, later) == Admitted)
            && (later.now < c.now + wait - 1.0 ==> Answer(limit, window, full, later).Refused?)
  {
    RefusesIffWindowIsFull(limit, window, trace, c);
    RefusesIffWindowIsFull(limit, window, full, later);
    HistoryRises(limit, window, trace, c.key);
    HitsAreSpaced(limit, window, trace, c.key);
    WaitDecides(History(limit, window, trace, c.key), limit, window, c.now, later.now);
  }

  lemma WaitDecides(hits: seq<real>, limit: int, window: real, now: real, later: real)
    requires Rising(hits) && Spaced(hits, limit, window) && limit >= 1 && now <= later
    requires forall i :: 0 <= i < |hits| ==> hits[i] <= now
    requires |Live(hits, now - window)| >= limit
    ensures var wait := RetryAfter(window, now, Live(hits, now - window)[0]) as real;
            && (later >= now + wait ==> |Live(hits, later - window)| < limit)
            && (later < now + wait - 1.0 ==> |Live(hits, later - window)| >= limit)
  {
    FullWindowIsExact(hits, limit, window, now);
    LaterWindow(hits, now - window, later - window);
    WaitBounds(hits, limit, window, now);
  }

  lemma RefusalKeepsHistory(limit: int, window: real, trace: seq<Call>, c: Call, quiet: seq<Call>)
    requires |Live(History(limit, window, trace, c.key), c.now - window)| >= limit
    requires forall i :: 0 <= i < |quiet| ==> quiet[i].key != c.key
    ensures History(limit, window, trace + [c] + quiet, c.key) == History(limit, window, trace, c.key)
  {
    assert (trace + [c])[..|trace|] == trace;
    QuietKeepsHistory(limit, window, trace + [c], quiet, c.key);
  }

  lemma LastIsLater(trace: seq<Call>, c: Call, quiet: seq<Call>, later: Call)
    requires UpTo(trace + [c] + quiet, later.now)
    ensures c.now <= later.now
  {
    var all := trace + [c] + quiet;
    assert all[|trace|] == c;
  }

  /** The wait told to a refused caller ends within a second after the oldest counted hit expires. */
  lemma WaitBounds(hits: seq<real>, limit: int, window: real, now: real)
    requires Rising(hits) && limit >= 1 && |Live(hits, now - window)| >= limit
    ensures var live := Live(hits, now - window); var d := Decide(limit, live);
            d.Refused? && var wait := RetryAfter(window, now, d.oldest) as real; wait - 1.0 <= live[0] + window - now < wait
  {
    LiveIsTail(hits, now - window);
  }
}
