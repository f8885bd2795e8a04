/**
 * The in-memory sliding-window rate limiter of the generate handler: a map
 * from client address to the timestamps of that client's recent admitted
 * requests (`RATE`). Time is counted in whole ticks (seconds).
 */
module RateLimit {

  /** Length of the trailing window, in seconds. */
  const Window: int := 60
  /** Admitted requests allowed per client inside one window. */
  const MaxRequests: nat := 5

  /**
   * The timestamps of `ts` still inside the window at time `t`: every entry
   * with `t - x < Window` is kept with its multiplicity and every other entry
   * is dropped.
   */
  function Recent(ts: seq<int>, t: int): (r: seq<int>)
    ensures |r| <= |ts|
    ensures forall x :: x in r <==> x in ts && t - x < Window
    ensures forall x {:trigger multiset(r)[x]} ::
      multiset(r)[x] == if t - x < Window then multiset(ts)[x] else 0
  {
    if ts == [] then []
    else
      var rest := Recent(ts[1..], t);
      assert ts == [ts[0]] + ts[1..];
      if t - ts[0] < Window then [ts[0]] + rest else rest
  }

  /** The request at time `t` is admitted: fewer than `MaxRequests` recent entries remain. */
  predicate Admits(ts: seq<int>, t: int)
    ensures |ts| < MaxRequests ==> Admits(ts, t)
  {
    |Recent(ts, t)| < MaxRequests
  }

  /**
   * The client's list after a request at time `t`: the stale entries are
   * gone whatever the verdict, and `t` is recorded only when admitted.
   */
  function After(ts: seq<int>, t: int): (r: seq<int>)
    ensures forall x :: x in r ==> t - x < Window
    ensures forall x {:trigger multiset(r)[x]} ::
      multiset(r)[x] ==
        (if t - x < Window then multiset(ts)[x] else 0) + (if x == t && Admits(ts, t) then 1 else 0)
    ensures |ts| <= MaxRequests ==> |r| <= MaxRequests
  {
    var recent := Recent(ts, t);
    if |recent| >= MaxRequests then recent else recent + [t]
  }

  /** The list stored for `ip`, empty for an address never seen (a defaultdict read). */
  function Lookup(windows: map<string, seq<int>>, ip: string): seq<int> {
    if ip in windows then windows[ip] else []
  }

  /** The limiter's state, one list of timestamps per client address. */
  class RateLimiter {
    var windows: map<string, seq<int>>

    /** No client ever holds more than `MaxRequests` timestamps. */
    ghost predicate Valid()
      reads this
    {
      forall ip :: ip in windows ==> |windows[ip]| <= MaxRequests
    }

    constructor ()
      ensures Valid() && windows == map[]
    {
      windows := map[];
    }

    /** The invariant bounds every client's stored list, including an unseen one. */
    lemma HistoryBounded(ip: string)
      requires Valid()
      ensures |History(ip)| <= MaxRequests
    {
    }

    /** The stored list for `ip`. */
    function History(ip: string): seq<int>
      reads this
    {
      Lookup(windows, ip)
    }

    /**
     * Prune `ip`'s list to the window, refuse when `MaxRequests` remain,
     * otherwise record `t`. Every other address keeps its list.
     */
    method Allow(ip: string, t: int) returns (ok: bool)
      modifies this
      ensures ok == Admits(old(History(ip)), t)
      ensures windows == old(windows)[ip := After(old(History(ip)), t)]
      ensures forall other :: other != ip && other in old(windows) ==>
        other in windows && windows[other] == old(windows)[other]
      ensures old(Valid()) ==> Valid()
    {
      var recent := Recent(History(ip), t);
      windows := windows[ip := recent];
      if |recent| >= MaxRequests {
        return false;
      }
      windows := windows[ip := windows[ip] + [t]];
      ok := true;
    }
  }

  /** A request whose every earlier entry has aged out is admitted and starts a fresh window. */
  lemma WindowSlides(ts: seq<int>, t: int)
    requires forall x :: x in ts ==> t - x >= Window
    ensures Admits(ts, t) && After(ts, t) == [t]
  {
    RecentDropsAll(ts, t);
    assert After(ts, t) == [] + [t];
  }

  /** Entries all outside the window are all dropped. */
  lemma {:induction false} RecentDropsAll(ts: seq<int>, t: int)
    requires forall x :: x in ts ==> t - x >= Window
    ensures Recent(ts, t) == []
  {
    if ts != [] {
      assert ts[0] in ts;
      assert forall x :: x in ts[1..] ==> x in ts;
      RecentDropsAll(ts[1..], t);
    }
  }

  /** Entries all inside the window survive pruning unchanged. */
  lemma {:induction false} RecentKeepsAll(ts: seq<int>, t: int)
    requires forall x :: x in ts ==> t - x < Window
    ensures Recent(ts, t) == ts
  {
    if ts != [] {
      assert ts[0] in ts;
      assert forall x :: x in ts[1..] ==> x in ts;
      RecentKeepsAll(ts[1..], t);
      assert ts == [ts[0]] + ts[1..];
    }
  }

  /** Pruning at `cur` and then at a later `t` is pruning at `t`. */
  lemma {:induction false} RecentTwice(ts: seq<int>, cur: int, t: int)
    requires cur <= t
    ensures Recent(Recent(ts, cur), t) == Recent(ts, t)
  {
    if ts != [] {
      RecentTwice(ts[1..], cur, t);
    }
  }

  /** Pruning a list extended at the back. */
  lemma {:induction false} RecentSnoc(ts: seq<int>, x: int, t: int)
    ensures Recent(ts + [x], t) == Recent(ts, t) + (if t - x < Window then [x] else [])
  {
    if ts == [] {
      assert [] + [x] == [x];
    } else {
      assert (ts + [x])[1..] == ts[1..] + [x];
      RecentSnoc(ts[1..], x, t);
    }
  }

  /** Pruning a list keeps at least as many entries as pruning one of its suffixes. */
  lemma {:induction false} RecentSuffix(ts: seq<int>, m: nat, t: int)
    requires m <= |ts|
    ensures |Recent(ts[m..], t)| <= |Recent(ts, t)|
  {
    if m > 0 {
      assert ts[m..] == ts[1..][m - 1..];
      RecentSuffix(ts[1..], m - 1, t);
    }
  }

  /** The verdicts of successive requests from one client at the given times. */
  function Verdicts(ts: seq<int>, times: seq<int>): (v: seq<bool>)
    ensures |v| == |times|
    decreases |times|
  {
    if times == [] then [] else [Admits(ts, times[0])] + Verdicts(After(ts, times[0]), times[1..])
  }

  /** The times of the requests whose verdict is `true`. */
  function Select(times: seq<int>, verdicts: seq<bool>): (r: seq<int>)
    requires |verdicts| == |times|
    ensures |r| <= |times|
  {
    if times == [] then []
    else (if verdicts[0] then [times[0]] else []) + Select(times[1..], verdicts[1..])
  }

  predicate Sorted(s: seq<int>) {
    forall i, j :: 0 <= i < j < |s| ==> s[i] <= s[j]
  }

  /** Any six admitted requests span at least a full window. */
  predicate Spread(acc: seq<int>) {
    forall i :: 0 <= i && i + MaxRequests < |acc| ==> acc[i + MaxRequests] - acc[i] >= Window
  }

  /**
   * A burst inside one window, on a clock that does not go backwards: starting
   * from a list whose entries are all still inside the window at the last
   * request, request `i` of the burst is admitted exactly when the list held
   * fewer than `MaxRequests - i` entries. From an empty list: the first five
   * are admitted and every later one is refused.
   */
  lemma {:induction false} BurstWithinWindow(ts: seq<int>, times: seq<int>)
    requires |ts| <= MaxRequests
    requires Sorted(times)
    requires times != [] ==> forall x :: x in ts + times ==> times[|times| - 1] - x < Window
    ensures forall i :: 0 <= i < |times| ==> Verdicts(ts, times)[i] == (|ts| + i < MaxRequests)
    decreases |times|
  {
    if times != [] {
      var t, last := times[0], times[|times| - 1];
      forall x | x in ts ensures t - x < Window {
        assert x in ts + times;
      }
      RecentKeepsAll(ts, t);
      var next := After(ts, t);
      assert next == if |ts| < MaxRequests then ts + [t] else ts;
      if |times| > 1 {
        forall x | x in next + times[1..]
          ensures last - x < Window
        {
          assert x in ts + times;
        }
      }
      BurstWithinWindow(next, times[1..]);
    }
  }

  /**
   * Admitting `t` keeps the admitted times sorted and spread: when fewer
   * than `MaxRequests` of them are recent at `t`, the one `MaxRequests`
   * places back is at least `Window` old.
   */
  lemma AdmitKeepsSpread(acc: seq<int>, t: int)
    requires Sorted(acc) && Spread(acc)
    requires forall x :: x in acc ==> x <= t
    requires |Recent(acc, t)| < MaxRequests
    ensures Sorted(acc + [t]) && Spread(acc + [t])
  {
    var n := |acc|;
    if n >= MaxRequests {
      var k := n - MaxRequests;
      if t - acc[k] < Window {
        forall x | x in acc[k..] ensures t - x < Window {
          var m :| k <= m < n && acc[m] == x;
        }
        RecentKeepsAll(acc[k..], t);
        RecentSuffix(acc, k, t);
        assert false;
      }
    }
    var acc' := acc + [t];
    forall i, j | 0 <= i < j < |acc'| ensures acc'[i] <= acc'[j] {
      if j == n {
        assert acc[i] in acc;
      }
    }
    forall i | 0 <= i && i + MaxRequests < |acc'|
      ensures acc'[i + MaxRequests] - acc'[i] >= Window
    {
      if i + MaxRequests < n {
        assert acc'[i + MaxRequests] == acc[i + MaxRequests];
      }
    }
  }

  /** One replay step: the first request's verdict decides whether its time joins `acc`. */
  lemma SelectStep(acc: seq<int>, ts: seq<int>, times: seq<int>)
    requires times != []
    ensures acc + Select(times, Verdicts(ts, times))
         == (if Admits(ts, times[0]) then acc + [times[0]] else acc)
            + Select(times[1..], Verdicts(After(ts, times[0]), times[1..]))
  {
    var rest := Select(times[1..], Verdicts(After(ts, times[0]), times[1..]));
    assert Select(times, Verdicts(ts, times)) == (if Admits(ts, times[0]) then [times[0]] else []) + rest;
    if Admits(ts, times[0]) {
      assert acc + ([times[0]] + rest) == acc + [times[0]] + rest;
    }
  }

  lemma SortedTail(cur: int, times: seq<int>)
    requires times != [] && Sorted([cur] + times)
    ensures cur <= times[0] && Sorted([times[0]] + times[1..])
  {
    assert cur == ([cur] + times)[0] && times[0] == ([cur] + times)[1];
    assert [times[0]] + times[1..] == times;
    forall i, j | 0 <= i < j < |times| ensures times[i] <= times[j] {
      assert times[i] == ([cur] + times)[i + 1] && times[j] == ([cur] + times)[j + 1];
    }
  }

  /**
   * On a clock that does not go backwards, the admitted requests of one
   * client are spread out: any `MaxRequests + 1` of them span at least
   * `Window` seconds. `acc` is what was admitted before, `cur` the time of the
   * previous request; the limiter then holds `Recent(acc, cur)`.
   */
  lemma {:induction false} AdmittedSpread(acc: seq<int>, cur: int, times: seq<int>)
    requires Sorted(acc) && Spread(acc)
    requires forall x :: x in acc ==> x <= cur
    requires Sorted([cur] + times)
    ensures var all := acc + Select(times, Verdicts(Recent(acc, cur), times));
      Sorted(all) && Spread(all)
    decreases |times|
  {
    if times == [] {
      assert acc + [] == acc;
    } else {
      var t := times[0];
      SortedTail(cur, times);
      var w := Recent(acc, cur);
      RecentTwice(acc, cur, t);
      var admitted := Admits(w, t);
      var acc' := if admitted then acc + [t] else acc;
      if admitted {
        RecentSnoc(acc, t, t);
        AdmitKeepsSpread(acc, t);
      }
      assert After(w, t) == Recent(acc', t);
      forall x | x in acc' ensures x <= t {
        if x !in acc { assert x == t; }
      }
      AdmittedSpread(acc', t, times[1..]);
      SelectStep(acc, w, times);
    }
  }

  /**
   * The cap promised to every client: on a clock that does not go backwards,
   * no window of `Window` seconds holds more than `MaxRequests` admitted
   * requests from one address, starting from a fresh address.
   */
  lemma RateCap(times: seq<int>)
    requires Sorted(times)
    ensures var admitted := Select(times, Verdicts([], times));
      && Sorted(admitted) && Spread(admitted)
      && forall i, j :: 0 <= i <= j < |admitted| && admitted[j] - admitted[i] < Window ==> j - i < MaxRequests
  {
    if times != [] {
      assert Sorted([times[0]] + times) by {
        forall i, j | 0 <= i < j <= |times| ensures ([times[0]] + times)[i] <= ([times[0]] + times)[j] {
          if i > 0 {
            assert ([times[0]] + times)[i] == times[i - 1];
          }
        }
      }
      AdmittedSpread([], times[0], times);
      assert [] + Select(times, Verdicts([], times)) == Select(times, Verdicts([], times));
    }
    WindowCount(Select(times, Verdicts([], times)));
  }

  /**
   * In a sorted, spread list, the entries between positions `i` and `j` that
   * lie within one window number at most `MaxRequests`: a sixth would be a
   * full window after the first.
   */
  lemma WindowCount(acc: seq<int>)
    requires Sorted(acc) && Spread(acc)
    ensures forall i, j :: 0 <= i <= j < |acc| && acc[j] - acc[i] < Window ==> j - i < MaxRequests
  {
    forall i, j | 0 <= i <= j < |acc| && MaxRequests <= j - i
      ensures Window <= acc[j] - acc[i]
    {
      assert acc[i + MaxRequests] <= acc[j];
    }
  }
}
