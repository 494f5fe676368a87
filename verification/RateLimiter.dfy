/**
 The request limit of the REST interface (RestApiService::checkRateLimit in
 src/network/rest/RestApiService.cpp): ten requests a second for each address, counted in
 fixed windows, with a table that is emptied when it grows too large.
 */
module RateLimiter {
  import opened Prelude
  import SetFacts

  const LIMIT_PER_SEC := 10
  const WINDOW_MS := 1000
  const TABLE_LIMIT := 256

  /** When the current window opened and how many requests it has seen. */
  datatype Bucket = Bucket(first: int, second: int)

  /** A window of one address, with the times of the requests it let through. */
  datatype Window = Window(start: int, times: seq<int>)

  // ---- Counting ---------------------------------------------------------------------

  function CountIn(times: seq<int>, t: int): nat {
    if times == [] then 0
    else CountIn(times[..|times| - 1], t) + if t <= times[|times| - 1] < t + WINDOW_MS then 1 else 0
  }

  /** The requests let through in the half-open interval of one second that begins at t. */
  function Accepted(windows: seq<Window>, t: int): nat {
    if windows == [] then 0 else Accepted(windows[..|windows| - 1], t) + CountIn(windows[|windows| - 1].times, t)
  }

  predicate WindowOk(w: Window) {
    |w.times| <= LIMIT_PER_SEC && forall i :: 0 <= i < |w.times| ==> w.start <= w.times[i] < w.start + WINDOW_MS
  }

  predicate WindowsOk(windows: seq<Window>) {
    && (forall i :: 0 <= i < |windows| ==> WindowOk(windows[i]))
    && (forall i :: 0 < i < |windows| ==> windows[i].start >= windows[i - 1].start + WINDOW_MS)
  }

  /** Windows opened by a request of their own, which is the first they let through. */
  predicate OpenedByRequest(windows: seq<Window>) {
    forall i :: 0 <= i < |windows| ==> windows[i].times != [] && windows[i].times[0] == windows[i].start
  }

  lemma {:induction false} CountIsBounded(times: seq<int>, t: int)
    ensures CountIn(times, t) <= |times|
    ensures (forall i :: 0 <= i < |times| ==> !(t <= times[i] < t + WINDOW_MS)) ==> CountIn(times, t) == 0
    ensures times != [] && !(t <= times[0] < t + WINDOW_MS) ==> CountIn(times, t) <= |times| - 1
  {
    if times != [] {
      CountIsBounded(times[..|times| - 1], t);
    }
  }

  /**
   One second touches two windows at most: twenty requests. When each window was opened by a
   request, the second that holds a window's last requests and the next one's misses the
   request that opened the first of them: nineteen.
   */
  lemma {:induction false} SecondIsBounded(windows: seq<Window>, t: int)
    requires WindowsOk(windows)
    ensures Accepted(windows, t) <= 2 * LIMIT_PER_SEC
    ensures OpenedByRequest(windows) ==> Accepted(windows, t) <= 2 * LIMIT_PER_SEC - 1
    ensures windows != [] && windows[|windows| - 1].start < t ==>
              Accepted(windows, t) <= LIMIT_PER_SEC
                && (OpenedByRequest(windows) ==> Accepted(windows, t) <= LIMIT_PER_SEC - 1)
    ensures windows != [] && windows[|windows| - 1].start <= t - WINDOW_MS ==> Accepted(windows, t) == 0
  {
    if windows != [] {
      var before, w := windows[..|windows| - 1], windows[|windows| - 1];
      assert WindowOk(w);
      CountIsBounded(w.times, t);
      SecondIsBounded(before, t);
      assert OpenedByRequest(windows) ==> OpenedByRequest(before);
      if before != [] {
        assert before[|before| - 1] == windows[|windows| - 2];
      }
    }
  }

  // ---- The table -----------------------------------------------------------------------

  /** What the bucket remembers of the windows since the table was last emptied. */
  ghost predicate Tracks(windows: seq<Window>, b: Bucket, clock: int) {
    && windows != [] && WindowsOk(windows)
    && var w := windows[|windows| - 1];
       && w.start == b.first <= clock && |w.times| == Min(b.second, LIMIT_PER_SEC)
  }

  /** Does a request at this time need a window of its own? An address without one counts from time 0. */
  predicate OpensWindow(windows: seq<Window>, now: int) {
    now - (if windows == [] then 0 else windows[|windows| - 1].start) >= WINDOW_MS
  }

  function WindowFor(windows: seq<Window>, now: int): seq<Window> {
    if OpensWindow(windows, now) then windows + [Window(now, [])]
    else if windows == [] then [Window(0, [])]
    else windows
  }

  function LetThrough(windows: seq<Window>, now: int): seq<Window>
    requires windows != []
  {
    var w := windows[|windows| - 1];
    windows[|windows| - 1 := w.(times := w.times + [now])]
  }

  lemma WindowIsOpen(was: seq<Window>, b: Bucket, clock: int, now: int)
    requires if was == [] then b == Bucket(0, 0) else Tracks(was, b, clock)
    requires 0 <= clock <= now
    ensures var b' := if now - b.first >= WINDOW_MS then Bucket(now, 0) else b;
            Tracks(WindowFor(was, now), b', now) && b'.first <= now < b'.first + WINDOW_MS && b'.second >= 0
  {}

  lemma RequestIsCounted(windows: seq<Window>, b: Bucket, now: int)
    requires Tracks(windows, b, now) && now < b.first + WINDOW_MS && b.second >= 0
    ensures Tracks(if b.second < LIMIT_PER_SEC then LetThrough(windows, now) else windows,
                   b.(second := b.second + 1), now)
  {
    assert WindowOk(windows[|windows| - 1]);
    if b.second < LIMIT_PER_SEC {
      var after := LetThrough(windows, now);
      forall i | 0 <= i < |after| ensures WindowOk(after[i]) {
        assert WindowOk(windows[i]);
      }
    }
  }

  /** After the first second of the clock, only a request opens a window, and it passes. */
  lemma FirstRequestPasses(was: seq<Window>, now: int)
    requires OpenedByRequest(was) && now >= WINDOW_MS
    ensures OpenedByRequest(LetThrough(WindowFor(was, now), now))
    ensures |WindowFor(was, now)[|WindowFor(was, now)| - 1].times| >= LIMIT_PER_SEC ==> WindowFor(was, now) == was
  {}

  /** True of every address; facts about all of them are looked up through it. */
  predicate Address(ip: string) { true }

  ghost predicate AllTracked(buckets: map<string, Bucket>, history: map<string, seq<Window>>, clock: int) {
    forall ip: string {:trigger Address(ip)} :: Address(ip) && ip in buckets ==>
        ip in history && Tracks(history[ip], buckets[ip], clock)
  }

  ghost function HistoryIn(buckets: map<string, Bucket>, history: map<string, seq<Window>>, ip: string): seq<Window> {
    if ip in buckets && ip in history then history[ip] else []
  }

  ghost predicate AllOpened(buckets: map<string, Bucket>, history: map<string, seq<Window>>) {
    forall ip: string {:trigger Address(ip)} :: Address(ip) ==> OpenedByRequest(HistoryIn(buckets, history, ip))
  }

  lemma TableAfter(buckets: map<string, Bucket>, history: map<string, seq<Window>>, clock: int, ip: string, b: Bucket,
                   ws: seq<Window>, now: int)
    requires AllTracked(buckets, history, clock) && clock <= now && Tracks(ws, b, now)
    ensures AllTracked(buckets[ip := b], history[ip := ws], now)
    ensures AllOpened(buckets, history) && OpenedByRequest(ws) ==> AllOpened(buckets[ip := b], history[ip := ws])
    ensures HistoryIn(buckets[ip := b], history[ip := ws], ip) == ws
    ensures |buckets[ip := b]| <= |buckets| + 1
    ensures forall other: string {:trigger Address(other)} :: Address(other) && other != ip ==>
              HistoryIn(buckets[ip := b], history[ip := ws], other) == HistoryIn(buckets, history, other)
  {
    forall other: string | Address(other) && other in buckets[ip := b]
      ensures other in history[ip := ws] && Tracks(history[ip := ws][other], buckets[ip := b][other], now)
    {
      if other != ip { assert Address(other); }
    }
    if AllOpened(buckets, history) && OpenedByRequest(ws) {
      forall other: string | Address(other)
        ensures OpenedByRequest(HistoryIn(buckets[ip := b], history[ip := ws], other))
      {
        if other != ip { assert Address(other); }
      }
    }
  }

  class Limiter {
    var buckets: map<string, Bucket>
    /** Per address, the windows since the table was last emptied. */
    ghost var history: map<string, seq<Window>>
    ghost var clock: int

    ghost predicate Valid()
      reads this
    {
      0 <= clock && |buckets| <= TABLE_LIMIT + 1 && AllTracked(buckets, history, clock)
    }

    ghost predicate Opened()
      reads this
    {
      AllOpened(buckets, history)
    }

    constructor ()
      ensures Valid() && Opened() && buckets == map[] && clock == 0
    {
      buckets, history, clock := map[], map[], 0;
    }

    ghost function HistoryOf(ip: string): seq<Window>
      reads this
    {
      HistoryIn(buckets, history, ip)
    }

    method MakeRoom()
      requires Valid()
      modifies this`buckets
      ensures Valid() && |buckets| <= TABLE_LIMIT && (old(Opened()) ==> Opened())
      ensures buckets.Keys == if old(|buckets|) > TABLE_LIMIT then {} else old(buckets.Keys)
      ensures forall ip: string {:trigger Address(ip)} :: Address(ip) ==>
                HistoryOf(ip) == if old(|buckets|) > TABLE_LIMIT then [] else old(HistoryOf(ip))
    {
      if |buckets| > TABLE_LIMIT { buckets := map[]; }
    }

    /** One request of one address: its bucket afterwards, and whether it passes. */
    static method Count(b: Bucket, now: int, ghost was: seq<Window>, ghost clock: int)
      returns (b': Bucket, ok: bool, ghost windows: seq<Window>)
      requires if was == [] then b == Bucket(0, 0) else Tracks(was, b, clock)
      requires 0 <= clock <= now
      ensures Tracks(windows, b', now)
      ensures var open := WindowFor(was, now);
              && (ok <==> |open[|open| - 1].times| < LIMIT_PER_SEC)
              && windows == if ok then LetThrough(open, now) else open
      ensures OpenedByRequest(was) && now >= WINDOW_MS ==> OpenedByRequest(windows)
    {
      windows := WindowFor(was, now);
      if OpenedByRequest(was) && now >= WINDOW_MS { FirstRequestPasses(was, now); }
      WindowIsOpen(was, b, clock, now);
      b' := b;
      if now - b'.first >= WINDOW_MS {
        b' := Bucket(now, 0);
      }
      RequestIsCounted(windows, b', now);
      b' := b'.(second := b'.second + 1);
      ok := b'.second <= LIMIT_PER_SEC;
      if ok { windows := LetThrough(windows, now); }
    }

    method Store(ip: string, b: Bucket, ghost windows: seq<Window>, ghost now: int)
      requires Valid() && |buckets| <= TABLE_LIMIT && clock <= now && Tracks(windows, b, now)
      modifies this
      ensures Valid() && clock == now && HistoryOf(ip) == windows && buckets.Keys == old(buckets.Keys) + {ip}
      ensures forall other: string {:trigger Address(other)} :: Address(other) && other != ip ==>
                HistoryOf(other) == old(HistoryOf(other))
      ensures old(Opened()) && OpenedByRequest(windows) ==> Opened()
    {
      TableAfter(buckets, history, clock, ip, b, windows, now);
      buckets := buckets[ip := b];
      history := history[ip := windows];
      clock := now;
    }

    /**
     A request passes while its window has let through fewer than ten. The windows of other
     addresses stay, unless the table had grown beyond its limit and was emptied.
     */
    method CheckRateLimit(ip: string, now: int) returns (ok: bool)
      requires Valid() && clock <= now
      modifies this
      ensures Valid() && clock == now
      ensures var was := if old(|buckets|) > TABLE_LIMIT then [] else old(HistoryOf(ip));
              var open := WindowFor(was, now);
              && (ok <==> |open[|open| - 1].times| < LIMIT_PER_SEC)
              && HistoryOf(ip) == if ok then LetThrough(open, now) else open
      ensures forall other: string {:trigger Address(other)} :: Address(other) && other != ip ==>
                HistoryOf(other) == if old(|buckets|) > TABLE_LIMIT then [] else old(HistoryOf(other))
      ensures old(Opened()) && now >= WINDOW_MS ==> Opened()
      ensures buckets.Keys == (if old(|buckets|) > TABLE_LIMIT then {} else old(buckets.Keys)) + {ip}
    {
      assert Address(ip);
      MakeRoom();
      ghost var was := HistoryOf(ip);
      var bucket := Bucket(0, 0);
      if ip in buckets { bucket := buckets[ip]; }
      assert if was == [] then bucket == Bucket(0, 0) else Tracks(was, bucket, clock);
      ghost var windows;
      bucket, ok, windows := Count(bucket, now, was, clock);
      Store(ip, bucket, windows, now);
    }
  }

  /**
   Any run with a clock that does not run backwards: of every address, any second between
   two emptyings of the table let through twenty requests at most, and nineteen unless the
   clock was still in its very first second.
   */
  method Run(requests: seq<(string, int)>) returns (limiter: Limiter)
    requires forall i, j :: 0 <= i < j < |requests| ==> requests[i].1 <= requests[j].1
    requires forall i :: 0 <= i < |requests| ==> 0 <= requests[i].1
    ensures fresh(limiter) && limiter.Valid() && |limiter.buckets| <= TABLE_LIMIT + 1
    ensures forall ip, t :: Accepted(limiter.HistoryOf(ip), t) <= 2 * LIMIT_PER_SEC
    ensures (forall i :: 0 <= i < |requests| ==> requests[i].1 >= WINDOW_MS) ==>
              forall ip, t :: Accepted(limiter.HistoryOf(ip), t) <= 2 * LIMIT_PER_SEC - 1
  {
    limiter := new Limiter();
    ghost var late := forall i :: 0 <= i < |requests| ==> requests[i].1 >= WINDOW_MS;
    for i := 0 to |requests|
      invariant fresh(limiter) && limiter.Valid()
      invariant limiter.clock == if i == 0 then 0 else requests[i - 1].1
      invariant late ==> limiter.Opened()
    {
      var _ := limiter.CheckRateLimit(requests[i].0, requests[i].1);
    }
    forall ip, t
      ensures Accepted(limiter.HistoryOf(ip), t) <= 2 * LIMIT_PER_SEC
      ensures late ==> Accepted(limiter.HistoryOf(ip), t) <= 2 * LIMIT_PER_SEC - 1
    {
      assert Address(ip);
      SecondIsBounded(limiter.HistoryOf(ip), t);
    }
  }

  // ---- The bound is reached -------------------------------------------------------------

  function Copies(n: nat, x: int): seq<int> { if n == 0 then [] else Copies(n - 1, x) + [x] }

  lemma {:induction false} CountCopies(times: seq<int>, n: nat, x: int, t: int)
    requires t <= x < t + WINDOW_MS
    ensures CountIn(times + Copies(n, x), t) == CountIn(times, t) + n && |Copies(n, x)| == n
  {
    if n == 0 {
      assert times + [] == times;
    } else {
      CountCopies(times, n - 1, x, t);
      assert times + Copies(n, x) == (times + Copies(n - 1, x)) + [x];
      assert ((times + Copies(n - 1, x)) + [x])[..|times| + n - 1] == times + Copies(n - 1, x);
    }
  }

  /** Some requests at one moment, within an open window that has room for them. */
  method Send(limiter: Limiter, ip: string, now: int, n: nat, ghost before: seq<Window>, ghost w: Window)
    requires limiter.Valid() && limiter.buckets.Keys == {ip} && limiter.clock <= now
    requires limiter.HistoryOf(ip) == before + [w] && now < w.start + WINDOW_MS && |w.times| + n <= LIMIT_PER_SEC
    modifies limiter
    ensures limiter.Valid() && limiter.buckets.Keys == {ip} && limiter.clock <= now
    ensures limiter.HistoryOf(ip) == before + [Window(w.start, w.times + Copies(n, now))]
  {
    ghost var times := w.times;
    assert w.times + [] == w.times;
    for i := 0 to n
      invariant limiter.Valid() && limiter.buckets.Keys == {ip} && limiter.clock <= now
      invariant times == w.times + Copies(i, now) && |times| == |w.times| + i
      invariant limiter.HistoryOf(ip) == before + [Window(w.start, times)]
    {
      var _ := limiter.CheckRateLimit(ip, now);
      ghost var after := before + [Window(w.start, times + [now])];
      assert LetThrough(before + [Window(w.start, times)], now) == after;
      assert w.times + Copies(i + 1, now) == times + [now];
      times := times + [now];
    }
  }

  /**
   One request opens a window, nine more come at its end and ten at the beginning of the next:
   nineteen within a second.
   */
  method Burst(ip: string) returns (limiter: Limiter)
    ensures fresh(limiter) && limiter.Valid() && Accepted(limiter.HistoryOf(ip), 1001) == 2 * LIMIT_PER_SEC - 1
  {
    limiter := new Limiter();
    Open(limiter, ip, 1000, []);
    ghost var first, second := Window(1000, [1000] + Copies(9, 1999)), Window(2000, [2000] + Copies(9, 2000));
    Send(limiter, ip, 1999, 9, [], Window(1000, [1000]));
    assert [] + [first] == [first];
    Open(limiter, ip, 2000, [first]);
    Send(limiter, ip, 2000, 9, [first], Window(2000, [2000]));
    assert limiter.HistoryOf(ip) == [first] + [second];
    AcceptedOfTwo(first, second, 1001);
    NineteenInTwo();
  }

  lemma AcceptedOfTwo(a: Window, b: Window, t: int)
    ensures Accepted([a] + [b], t) == CountIn(a.times, t) + CountIn(b.times, t)
  {
    var two := [a] + [b];
    assert two[..|two| - 1] == [a] && two[|two| - 1] == b;
    assert [a][..|[a]| - 1] == [] && [a][0] == a;
    assert Accepted([a], t) == CountIn(a.times, t);
  }

  lemma NineteenInTwo()
    ensures CountIn([1000] + Copies(9, 1999), 1001) == 9 && CountIn([2000] + Copies(9, 2000), 1001) == 10
  {
    CountCopies([1000], 9, 1999, 1001);
    CountCopies([2000], 9, 2000, 1001);
    assert [1000][..0] == [] && [2000][..0] == [];
  }

  /** A request that comes after the last window opens one of its own. */
  method Open(limiter: Limiter, ip: string, now: int, ghost before: seq<Window>)
    requires limiter.Valid() && limiter.buckets.Keys <= {ip} && limiter.clock <= now
    requires limiter.HistoryOf(ip) == before && OpensWindow(before, now)
    modifies limiter
    ensures limiter.Valid() && limiter.buckets.Keys == {ip} && limiter.clock <= now
    ensures limiter.HistoryOf(ip) == before + [Window(now, [now])]
  {
    SetFacts.SubsetIsSmaller(limiter.buckets.Keys, {ip});
    ghost var empty := Window(now, []);
    assert empty.times + [now] == [now];
    assert LetThrough(before + [empty], now) == before + [Window(now, [now])];
    var _ := limiter.CheckRateLimit(ip, now);
  }
}
