/** The per-IP sliding-window limiter in front of the public POST endpoints. */
module RateLimiter {

  // --------------------------------------------------------------- one client

  /** The stamps after `cutoff`, in order. */
  function Live(ts: seq<int>, cutoff: int): seq<int> {
    if ts == [] then []
    else
      var t := ts[|ts| - 1];
      Live(ts[..|ts| - 1], cutoff) + if t > cutoff then [t] else []
  }

  predicate Admits(ts: seq<int>, now: int, window: int, max: int) {
    |Live(ts, now - window)| < max
  }

  /** What allow leaves stored for this IP. */
  function Next(ts: seq<int>, now: int, window: int, max: int): seq<int> {
    Live(ts, now - window) + if Admits(ts, now, window, max) then [now] else []
  }

  /** The stored stamps after calls at `nows`, in the order the mutex let them in. */
  function Stored(nows: seq<int>, window: int, max: int): seq<int> {
    if nows == [] then []
    else Next(Stored(nows[..|nows| - 1], window, max), nows[|nows| - 1], window, max)
  }

  /** Every stamp ever admitted: the limiter that never forgets. */
  function Admitted(nows: seq<int>, window: int, max: int): seq<int> {
    if nows == [] then []
    else
      var before, now := nows[..|nows| - 1], nows[|nows| - 1];
      Admitted(before, window, max) + if Admits(Stored(before, window, max), now, window, max) then [now] else []
  }

  /** The latest reading so far. */
  function Peak(nows: seq<int>): int
    requires nows != []
  {
    var now := nows[|nows| - 1];
    if |nows| == 1 then now
    else
      var p := Peak(nows[..|nows| - 1]);
      if now > p then now else p
  }

  /** Clocks are read before the mutex is taken: each reading may lag the latest one by at most `d`. */
  ghost predicate Lagging(nows: seq<int>, d: int) {
    nows != [] ==>
      && Lagging(nows[..|nows| - 1], d)
      && (|nows| > 1 ==> nows[|nows| - 1] >= Peak(nows[..|nows| - 1]) - d)
  }

  /** How many stamps lie in the half-open interval (lo, hi]. */
  function Within(ts: seq<int>, lo: int, hi: int): nat {
    if ts == [] then 0
    else
      var t := ts[|ts| - 1];
      Within(ts[..|ts| - 1], lo, hi) + if lo < t <= hi then 1 else 0
  }

  lemma {:induction false} LiveConcat(a: seq<int>, b: seq<int>, c: int)
    ensures Live(a + b, c) == Live(a, c) + Live(b, c)
  {
    if b == [] {
      assert a + b == a;
    } else {
      assert (a + b)[..|a + b| - 1] == a + b[..|b| - 1];
      LiveConcat(a, b[..|b| - 1], c);
    }
  }

  /** A later cutoff subsumes an earlier one. */
  lemma {:induction false} LiveLive(ts: seq<int>, c: int, e: int)
    requires c <= e
    ensures Live(Live(ts, c), e) == Live(ts, e)
    ensures |Live(ts, e)| <= |Live(ts, c)|
  {
    if ts != [] {
      var t := ts[|ts| - 1];
      LiveLive(ts[..|ts| - 1], c, e);
      LiveConcat(Live(ts[..|ts| - 1], c), if t > c then [t] else [], e);
      assert Live([t], e) == if t > e then [t] else [];
    }
  }

  lemma {:induction false} WithinLive(ts: seq<int>, lo: int, hi: int)
    ensures Within(ts, lo, hi) <= |Live(ts, lo)|
  {
    if ts != [] {
      WithinLive(ts[..|ts| - 1], lo, hi);
    }
  }

  /**
   * Forgetting loses nothing that still counts: past any cutoff at or after (latest reading - window)
   * the stored stamps are exactly the admitted ones, whatever order the readings came in.
   */
  lemma {:induction false} StoredIsAdmitted(nows: seq<int>, window: int, max: int, c: int)
    requires nows != [] ==> c >= Peak(nows) - window
    ensures Live(Stored(nows, window, max), c) == Live(Admitted(nows, window, max), c)
  {
    if nows != [] {
      var before, now := nows[..|nows| - 1], nows[|nows| - 1];
      var stored := Stored(before, window, max);
      var tail := if Admits(stored, now, window, max) then [now] else [];
      StoredIsAdmitted(before, window, max, c);
      LiveConcat(Live(stored, now - window), tail, c);
      LiveLive(stored, now - window, c);
      LiveConcat(Admitted(before, window, max), tail, c);
    }
  }

  /**
   * With readings that never go back, the limiter decides as if it never forgot: the next call is
   * admitted iff fewer than max admitted stamps are later than now - window.
   */
  lemma NeverForgets(nows: seq<int>, now: int, window: int, max: int)
    requires nows != [] ==> now >= Peak(nows)
    ensures Admits(Stored(nows, window, max), now, window, max)
            <==> |Live(Admitted(nows, window, max), now - window)| < max
  {
    StoredIsAdmitted(nows, window, max, now - window);
  }

  /** Memory is bounded by the quota, whatever the readings. */
  lemma {:induction false} StoredBounded(nows: seq<int>, window: int, max: int)
    ensures |Stored(nows, window, max)| <= if max > 0 then max else 0
  {
    if nows != [] {
      var before, now := nows[..|nows| - 1], nows[|nows| - 1];
      StoredBounded(before, window, max);
      LiveShrinks(Stored(before, window, max), now - window);
    }
  }

  lemma {:induction false} LiveShrinks(ts: seq<int>, c: int)
    ensures |Live(ts, c)| <= |ts|
  {
    if ts != [] {
      LiveShrinks(ts[..|ts| - 1], c);
    }
  }

  /**
   * The quota under out-of-order clocks: if no reading lags the latest by more than d, every interval
   * (x, x + window - d] holds at most max admitted requests; d = 0 gives the full window.
   */
  lemma {:induction false} QuotaUnderLag(nows: seq<int>, window: int, max: int, d: int, x: int)
    requires 0 <= d && Lagging(nows, d)
    ensures Within(Admitted(nows, window, max), x, x + window - d) <= if max > 0 then max else 0
  {
    hide Live;
    if nows != [] {
      var before, now := nows[..|nows| - 1], nows[|nows| - 1];
      var stored, admitted := Stored(before, window, max), Admitted(before, window, max);
      var hi := x + window - d;
      QuotaUnderLag(before, window, max, d, x);
      if Admits(stored, now, window, max) {
        assert (admitted + [now])[..|admitted|] == admitted;
        if x < now <= hi {
          StoredIsAdmitted(before, window, max, x);
          LiveLive(stored, now - window, x);
          WithinLive(admitted, x, hi);
        }
      } else {
        assert admitted + [] == admitted;
      }
    }
  }

  /** One more call. */
  lemma CallAppended(nows: seq<int>, now: int, window: int, max: int)
    ensures Stored(nows + [now], window, max) == Next(Stored(nows, window, max), now, window, max)
    ensures Admitted(nows + [now], window, max) == Admitted(nows, window, max)
            + if Admits(Stored(nows, window, max), now, window, max) then [now] else []
  {
    assert (nows + [now])[..|nows|] == nows;
  }

  lemma LiveOne(t: int, c: int)
    ensures Live([t], c) == if t > c then [t] else []
  {
    assert [t][..0] == [];
  }

  lemma {:induction false} LiveNone(ts: seq<int>, c: int)
    requires forall k :: 0 <= k < |ts| ==> ts[k] <= c
    ensures Live(ts, c) == []
  {
    if ts != [] {
      LiveNone(ts[..|ts| - 1], c);
    }
  }

  lemma {:induction false} LiveAll(ts: seq<int>, c: int)
    requires forall k :: 0 <= k < |ts| ==> ts[k] > c
    ensures Live(ts, c) == ts
  {
    if ts != [] {
      LiveAll(ts[..|ts| - 1], c);
      assert ts == ts[..|ts| - 1] + [ts[|ts| - 1]];
    }
  }

  lemma WithinAppended(ts: seq<int>, t: int, lo: int, hi: int)
    ensures Within(ts + [t], lo, hi) == Within(ts, lo, hi) + if lo < t <= hi then 1 else 0
  {
    assert (ts + [t])[..|ts|] == ts;
  }

  lemma LaggingAppended(nows: seq<int>, now: int, d: int)
    requires Lagging(nows, d) && (nows != [] ==> now >= Peak(nows) - d)
    ensures Lagging(nows + [now], d)
    ensures Peak(nows + [now]) == if nows == [] || now > Peak(nows) then now else Peak(nows)
  {
    assert (nows + [now])[..|nows|] == nows;
  }

  /** A call that finds room. */
  lemma GetsIn(nows: seq<int>, live: seq<int>, now: int, window: int, max: int)
    requires Live(Stored(nows, window, max), now - window) == live && |live| < max
    requires Admitted(nows, window, max) == nows
    ensures Stored(nows + [now], window, max) == live + [now]
    ensures Admitted(nows + [now], window, max) == nows + [now]
  {
    hide Live, Stored, Admitted;
    CallAppended(nows, now, window, max);
  }

  // ------------------------------------------------------ how exact the bound is

  function Zeros(n: nat): (s: seq<int>)
    ensures |s| == n && forall k :: 0 <= k < n ==> s[k] == 0
  {
    if n == 0 then [] else Zeros(n - 1) + [0]
  }

  /** A burst of `n` calls at one instant, within the quota: all get in. */
  lemma {:induction false} BurstGetsIn(n: nat, window: int, max: int)
    requires window > 0 && n <= max
    ensures Stored(Zeros(n), window, max) == Zeros(n) && Admitted(Zeros(n), window, max) == Zeros(n)
  {
    hide Live;
    if n > 0 {
      hide Stored, Admitted;
      BurstGetsIn(n - 1, window, max);
      LiveAll(Zeros(n - 1), 0 - window);
      GetsIn(Zeros(n - 1), Zeros(n - 1), 0, window, max);
    }
  }

  lemma {:induction false} BurstIsTimely(n: nat, d: int)
    requires d >= 0
    ensures Lagging(Zeros(n), d) && (n > 0 ==> Peak(Zeros(n)) == 0)
  {
    if n > 0 {
      BurstIsTimely(n - 1, d);
      hide Lagging, Peak;
      LaggingAppended(Zeros(n - 1), 0, d);
    }
  }

  lemma {:induction false} BurstCounts(n: nat, hi: int)
    requires hi >= 0
    ensures Within(Zeros(n), -1, hi) == n
  {
    if n > 0 {
      BurstCounts(n - 1, hi);
      hide Within;
      WithinAppended(Zeros(n - 1), 0, -1, hi);
    }
  }

  /** A full burst, a call one window later and one call that lags it by `d`. */
  function LateCaller(window: int, max: nat, d: int): seq<int> {
    Zeros(max) + [window] + [window - d]
  }

  lemma LateCallerGetsIn(window: int, max: nat, d: int)
    requires 0 <= d < window && max >= 2
    ensures Admitted(LateCaller(window, max, d), window, max) == LateCaller(window, max, d)
  {
    hide Live, Stored, Admitted;
    BurstGetsIn(max, window, max);
    LiveNone(Zeros(max), window - window);
    GetsIn(Zeros(max), [], window, window, max);
    assert [] + [window] == [window];
    LiveOne(window, window - d - window);
    GetsIn(Zeros(max) + [window], [window], window - d, window, max);
  }

  lemma LateCallerLags(window: int, max: nat, d: int)
    requires 0 <= d < window && max >= 2
    ensures Lagging(LateCaller(window, max, d), d)
  {
    hide Lagging, Peak;
    BurstIsTimely(max, d);
    LaggingAppended(Zeros(max), window, d);
    LaggingAppended(Zeros(max) + [window], window - d, d);
  }

  /**
   * The bound cannot be improved: for every quota of at least two and every lag below the window, an interval
   * one unit longer than window - d can hold more than the quota.
   */
  lemma QuotaUnderLagIsTight(window: int, max: nat, d: int)
    requires 0 <= d < window && max >= 2
    ensures var nows := LateCaller(window, max, d);
            Lagging(nows, d) && Within(Admitted(nows, window, max), -1, -1 + window - d + 1) > max
  {
    hide Lagging, Admitted, Within;
    LateCallerGetsIn(window, max, d);
    LateCallerLags(window, max, d);
    BurstCounts(max, window - d);
    WithinAppended(Zeros(max), window, -1, window - d);
    WithinAppended(Zeros(max) + [window], window - d, -1, window - d);
  }

  function Last(s: seq<int>): seq<int> {
    if s == [] then [] else [s[|s| - 1]]
  }

  ghost predicate Below(s: seq<int>, t: int) {
    forall k :: 0 <= k < |s| ==> s[k] <= t
  }

  /** With a quota of one, the stored stamp is the last one admitted, and the latest. */
  lemma {:induction false} OneStampStored(nows: seq<int>, window: int)
    requires window > 0
    ensures var a := Admitted(nows, window, 1);
            Stored(nows, window, 1) == Last(a) && (a != [] ==> Below(a, a[|a| - 1]))
  {
    hide Live;
    if nows != [] {
      var before, now := nows[..|nows| - 1], nows[|nows| - 1];
      var a := Admitted(before, window, 1);
      OneStampStored(before, window);
      LiveEmpty(now - window);
      if a != [] {
        LiveOne(a[|a| - 1], now - window);
      }
      if !Admits(Last(a), now, window, 1) {
        assert a + [] == a;
      }
    }
  }

  lemma LiveEmpty(c: int)
    ensures Live([], c) == []
  {
  }

  /** With a quota of one, admitted stamps are a window apart, so no window holds two, whatever the readings. */
  lemma {:induction false} QuotaOfOne(nows: seq<int>, window: int, x: int)
    requires window > 0
    ensures Within(Admitted(nows, window, 1), x, x + window) <= 1
  {
    hide Live, Stored, Within;
    if nows == [] {
      NoneWithin([], x, x + window);
    } else {
      var before, now := nows[..|nows| - 1], nows[|nows| - 1];
      var a := Admitted(before, window, 1);
      QuotaOfOne(before, window, x);
      OneStampStored(before, window);
      WithinAppended(a, now, x, x + window);
      assert a + [] == a;
      if Admits(Stored(before, window, 1), now, window, 1) && x < now <= x + window {
        if a != [] {
          LiveOne(a[|a| - 1], now - window);
        }
        NoneWithin(a, x, x + window);
      }
    }
  }

  lemma {:induction false} NoneWithin(ts: seq<int>, lo: int, hi: int)
    requires Below(ts, lo)
    ensures Within(ts, lo, hi) == 0
  {
    if ts != [] {
      NoneWithin(ts[..|ts| - 1], lo, hi);
    }
  }

  lemma {:induction false} WithinGrows(ts: seq<int>, lo: int, hi: int, hi': int)
    requires hi <= hi'
    ensures Within(ts, lo, hi) <= Within(ts, lo, hi')
  {
    if ts != [] {
      WithinGrows(ts[..|ts| - 1], lo, hi, hi');
    }
  }

  lemma {:induction false} NoQuotaNothing(nows: seq<int>, window: int, max: int)
    requires max <= 0
    ensures Admitted(nows, window, max) == []
  {
    if nows != [] {
      NoQuotaNothing(nows[..|nows| - 1], window, max);
    }
  }

  /** The interval (x, x + window] holds no more admitted requests than the quota. */
  ghost predicate FullWindowHolds(nows: seq<int>, window: int, max: int, x: int) {
    Within(Admitted(nows, window, max), x, x + window) <= if max > 0 then max else 0
  }

  ghost predicate FullWindowsHold(window: int, max: int, d: int) {
    forall nows, x :: Lagging(nows, d) ==> FullWindowHolds(nows, window, max, x)
  }

  /** For lags up to `d`, the quota holds in every full window exactly when clocks do not lag or the quota is at most one. */
  lemma FullWindowExactly(window: int, max: int, d: int)
    requires 0 <= d < window
    ensures FullWindowsHold(window, max, d) <==> d == 0 || max <= 1
  {
    hide Lagging, Admitted, Within;
    if d == 0 || max <= 1 {
      forall nows, x | Lagging(nows, d) ensures FullWindowHolds(nows, window, max, x) {
        FullWindowKept(nows, window, max, d, x);
      }
    } else {
      var nows := LateCaller(window, max, d);
      QuotaUnderLagIsTight(window, max, d);
      WithinGrows(Admitted(nows, window, max), -1, window - d, -1 + window);
      assert !FullWindowHolds(nows, window, max, -1);
    }
  }

  lemma FullWindowKept(nows: seq<int>, window: int, max: int, d: int, x: int)
    requires 0 <= d < window && (d == 0 || max <= 1) && Lagging(nows, d)
    ensures FullWindowHolds(nows, window, max, x)
  {
    hide Lagging, Admitted, Within;
    if max <= 0 {
      NoQuotaNothing(nows, window, max);
      NoneWithin([], x, x + window);
    } else if max == 1 {
      QuotaOfOne(nows, window, x);
    } else {
      QuotaUnderLag(nows, window, max, d, x);
    }
  }

  // -------------------------------------------------------------- all clients

  /** The readings of the calls made for one IP, in order. */
  function Readings(calls: seq<(string, int)>, ip: string): seq<int> {
    if calls == [] then []
    else
      var last := calls[|calls| - 1];
      Readings(calls[..|calls| - 1], ip) + if last.0 == ip then [last.1] else []
  }

  lemma ReadingsAppended(calls: seq<(string, int)>, ip: string, now: int, other: string)
    ensures Readings(calls + [(ip, now)], other) == Readings(calls, other) + if other == ip then [now] else []
  {
    assert (calls + [(ip, now)])[..|calls|] == calls;
  }

  function Of(stamps: map<string, seq<int>>, ip: string): seq<int> {
    if ip in stamps then stamps[ip] else []
  }

  /** The stamps kept for every IP are what its own calls leave. */
  ghost predicate Explains(calls: seq<(string, int)>, stamps: map<string, seq<int>>, window: int, max: int) {
    forall ip :: Of(stamps, ip) == Stored(Readings(calls, ip), window, max)
  }

  lemma OneMoreCall(calls: seq<(string, int)>, stamps: map<string, seq<int>>, ip: string, now: int, window: int, max: int)
    requires Explains(calls, stamps, window, max)
    ensures Explains(calls + [(ip, now)], stamps[ip := Next(Of(stamps, ip), now, window, max)], window, max)
  {
    CallAppended(Readings(calls, ip), now, window, max);
    var later := stamps[ip := Next(Of(stamps, ip), now, window, max)];
    forall other ensures Of(later, other) == Stored(Readings(calls + [(ip, now)], other), window, max) {
      ReadingsAppended(calls, ip, now, other);
      assert Of(stamps, other) == Stored(Readings(calls, other), window, max);
      if other != ip {
        assert Readings(calls + [(ip, now)], other) == Readings(calls, other);
      }
    }
  }

  /** A Go slice: the first `len` elements of its backing array. */
  datatype Slice = Slice(buf: array<int>, len: nat)

  class IpRateLimiter {
    const window: int
    const max: int
    var entries: map<string, Slice>

    /** Every call so far, and the stamps the slices of `entries` hold. */
    ghost var calls: seq<(string, int)>
    ghost var stamps: map<string, seq<int>>

    ghost function Buffers(): set<array<int>>
      reads this
    {
      set ip | ip in entries :: entries[ip].buf
    }

    /** Every slice holds its stamps, and no two IPs share a backing array. */
    ghost predicate Holds()
      reads this, Buffers()
    {
      && stamps.Keys == entries.Keys
      && (forall ip :: ip in entries ==>
            entries[ip].len <= entries[ip].buf.Length && entries[ip].buf[..entries[ip].len] == stamps[ip])
      && (forall a, b :: a in entries && b in entries && a != b ==> entries[a].buf != entries[b].buf)
    }

    ghost predicate Valid()
      reads this, Buffers()
    {
      Holds() && Explains(calls, stamps, window, max)
    }

    constructor (window: int, max: int)
      ensures Valid() && calls == [] && stamps == map[]
      ensures this.window == window && this.max == max
    {
      this.window, this.max, this.entries, this.calls, this.stamps := window, max, map[], [], map[];
    }

    /** l.entries[ip], a nil slice when absent. */
    method Lookup(ip: string) returns (ts: Slice)
      requires Holds()
      ensures ts.len <= ts.buf.Length && ts.buf[..ts.len] == Of(stamps, ip)
      ensures if ip in entries then ts == entries[ip] else fresh(ts.buf)
    {
      if ip in entries {
        ts := entries[ip];
      } else {
        var none := new int[0];
        ts := Slice(none, 0);
      }
    }

    /** l.entries[ip] = ts */
    method Store(ip: string, ts: Slice)
      requires ts.len <= ts.buf.Length && stamps.Keys == entries.Keys
      requires forall a :: a in entries && a != ip ==>
                 && entries[a].len <= entries[a].buf.Length && entries[a].buf[..entries[a].len] == stamps[a]
                 && entries[a].buf != ts.buf
      requires forall a, b :: a in entries && b in entries && a != ip && b != ip && a != b ==> entries[a].buf != entries[b].buf
      modifies `entries, `stamps
      ensures Holds() && stamps == old(stamps)[ip := ts.buf[..ts.len]]
    {
      entries := entries[ip := ts];
      stamps := stamps[ip := ts.buf[..ts.len]];
    }

    /** Compacts the slice in place, decides, and appends the reading when it admits. */
    method Admit(ip: string, now: int) returns (ok: bool)
      requires Holds()
      modifies `entries, `stamps, if ip in entries then {entries[ip].buf} else {}
      ensures Holds()
      ensures ok == Admits(Of(old(stamps), ip), now, window, max)
      ensures stamps == old(stamps)[ip := Next(Of(old(stamps), ip), now, window, max)]
    {
      var ts := Lookup(ip);
      var j := Compact(ts.buf, ts.len, now - window);
      ok := j < max;
      var kept := Slice(ts.buf, j);
      if ok {
        kept := Append(kept, now);
      }
      assert kept.buf[..kept.len] == Next(Of(stamps, ip), now, window, max);
      Store(ip, kept);
    }

    /** allow, with its clock reading as a parameter. */
    method Allow(ip: string, now: int) returns (ok: bool)
      requires Valid()
      modifies this, if ip in entries then {entries[ip].buf} else {}
      ensures Valid()
      ensures calls == old(calls) + [(ip, now)]
      ensures ok == Admits(Stored(Readings(old(calls), ip), window, max), now, window, max)
      ensures stamps == old(stamps)[ip := Next(Of(old(stamps), ip), now, window, max)]
    {
      OneMoreCall(calls, stamps, ip, now, window, max);
      assert Of(stamps, ip) == Stored(Readings(calls, ip), window, max);
      ok := Admit(ip, now);
      calls := calls + [(ip, now)];
    }
  }

  lemma LiveNext(s: seq<int>, n: nat, cutoff: int)
    requires n < |s|
    ensures Live(s[..n + 1], cutoff) == Live(s[..n], cutoff) + if s[n] > cutoff then [s[n]] else []
  {
    assert s[..n + 1][..n] == s[..n];
  }

  /** The loop of allow: overwrites the slice with its live stamps, in place. */
  method Compact(ts: array<int>, n: nat, cutoff: int) returns (j: nat)
    requires n <= ts.Length
    modifies ts
    ensures j <= n && ts[..j] == Live(old(ts[..n]), cutoff)
  {
    hide Live;
    ghost var was := ts[..n];
    var i := 0;
    j := 0;
    LiveEmpty(cutoff);
    while i < n
      invariant j <= i <= n
      invariant ts[..j] == Live(was[..i], cutoff)
      invariant forall k :: i <= k < n ==> ts[k] == was[k]
    {
      var t := ts[i];
      ghost var kept := ts[..j];
      LiveNext(was, i, cutoff);
      if t > cutoff {
        ts[j] := t;
        j := j + 1;
        assert ts[..j] == kept + [t];
      }
      i := i + 1;
    }
    assert was[..n] == was;
  }

  /** append(ts, t): in place while there is capacity, otherwise into a larger array. */
  method Append(ts: Slice, t: int) returns (r: Slice)
    requires ts.len <= ts.buf.Length
    modifies ts.buf
    ensures r.buf == ts.buf || fresh(r.buf)
    ensures r.len == ts.len + 1 <= r.buf.Length
    ensures r.buf[..r.len] == old(ts.buf[..ts.len]) + [t]
  {
    var buf := ts.buf;
    if ts.len == buf.Length {
      buf := new int[2 * ts.len + 1];
      forall k | 0 <= k < ts.len {
        buf[k] := ts.buf[k];
      }
    }
    buf[ts.len] := t;
    r := Slice(buf, ts.len + 1);
  }
}
