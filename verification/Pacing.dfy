/** rate_limiter.py and the renewals of rest_connection.py: how requests are spaced, how often a session
    may be renewed, and what one call may send. Times are seconds, as exact reals. */
module Pacing {
  import Identity

  const HOUR := 3600.0
  const RENEWALS_PER_HOUR := 4

  // ---- spacing ----

  /** A turn: when it was due at the earliest, and the interval then in force. */
  datatype Turn = Turn(slot: real, interval: real)

  ghost predicate Spaced(turns: seq<Turn>) {
    forall i :: 0 <= i < |turns| - 1 ==>
      turns[i].slot + turns[i].interval <= turns[i + 1].slot && 0.0 < turns[i].interval <= turns[i + 1].interval
  }

  function Times(n: int, interval: real): real {
    n as real * interval
  }

  lemma OneMoreTime(n: int, interval: real)
    ensures Times(n + 1, interval) == Times(n, interval) + interval
  {
  }

  lemma {:induction false} TurnsKeepTheirDistance(turns: seq<Turn>, i: nat, j: nat)
    requires Spaced(turns) && i <= j < |turns|
    ensures turns[i].slot + Times(j - i, turns[i].interval) <= turns[j].slot && turns[i].interval <= turns[j].interval
    decreases j
  {
    if i < j {
      TurnsKeepTheirDistance(turns, i, j - 1);
      OneMoreTime(j - 1 - i, turns[i].interval);
    }
  }

  lemma {:induction false} RangeSize(s: set<int>, low: int, high: int)
    requires low <= high && forall k :: k in s ==> low <= k <= high
    ensures |s| <= high - low + 1
    decreases high - low
  {
    if low == high {
      assert forall k :: k in s ==> k == low;
      assert s <= {low};
      Identity.SubsetSize(s, {low});
    } else {
      var rest := s - {high};
      RangeSize(rest, low, high - 1);
      assert s <= rest + {high};
      Identity.SubsetSize(s, rest + {high});
    }
  }

  function Within(turns: seq<Turn>, start: real, length: real): set<int> {
    set k | 0 <= k < |turns| && start <= turns[k].slot <= start + length
  }

  lemma TimesGrows(m: int, n: int, interval: real)
    requires m <= n && 0.0 <= interval
    ensures Times(m, interval) <= Times(n, interval)
  {
  }

  /** A window of length W holds at most W / interval + 1 turns, for the smallest interval in force in it,
      which is the one at its first turn. */
  lemma WindowHoldsFew(turns: seq<Turn>, start: real, length: real, first: nat)
    requires Spaced(turns) && first in Within(turns, start, length) && 0.0 < turns[first].interval
    requires forall k :: k in Within(turns, start, length) ==> first <= k
    ensures |Within(turns, start, length)| as real <= length / turns[first].interval + 1.0
  {
    var window := Within(turns, start, length);
    var last := Highest(window, first);
    RangeSize(window, first, last);
    TurnsKeepTheirDistance(turns, first, last);
    TimesGrows(|window| - 1, last - first, turns[first].interval);
    AsRatio(|window| - 1, turns[first].interval, length);
  }

  function GrantsWithin(grants: seq<real>, start: real, length: real): set<int> {
    set k | 0 <= k < |grants| && start <= grants[k] <= start + length
  }

  /** The same bound for the clock readings at which the turns were really granted, when each was granted as it
      came due. */
  lemma WindowGrantsFew(turns: seq<Turn>, grants: seq<real>, start: real, length: real, first: nat)
    requires Spaced(turns) && Granted(turns, grants, true) && first in GrantsWithin(grants, start, length)
    requires forall k :: k in GrantsWithin(grants, start, length) ==> first <= k
    requires 0.0 < turns[first].interval
    ensures |GrantsWithin(grants, start, length)| as real <= length / turns[first].interval + 1.0
  {
    assert GrantsWithin(grants, start, length) == Within(turns, start, length);
    WindowHoldsFew(turns, start, length, first);
  }

  /** No turn is granted later than its slot says; when all were punctual, each was granted at its slot. */
  predicate Granted(turns: seq<Turn>, grants: seq<real>, punctual: bool) {
    && |grants| == |turns| && (forall k :: 0 <= k < |grants| ==> grants[k] <= turns[k].slot)
    && (punctual ==> forall k :: 0 <= k < |grants| ==> grants[k] == turns[k].slot)
  }

  lemma GrantedOneMore(turns: seq<Turn>, grants: seq<real>, punctual: bool, turn: Turn, grant: real, inTime: bool)
    requires Granted(turns, grants, punctual) && grant <= turn.slot && (inTime ==> grant == turn.slot)
    ensures Granted(turns + [turn], grants + [grant], punctual && inTime)
  {
  }

  lemma AsRatio(n: int, interval: real, length: real)
    requires Times(n, interval) <= length && 0.0 < interval
    ensures n as real <= length / interval
  {
    assert n as real * interval / interval == n as real;
  }

  lemma {:induction false} Highest(s: set<int>, x: int) returns (m: int)
    requires x in s
    ensures m in s && forall k :: k in s ==> k <= m
    decreases |s|
  {
    m := x;
    if y :| y in s && y > x {
      m := Highest(s - {x}, y);
      assert forall k :: k in s ==> k == x || k in s - {x};
    }
  }

  predicate SlowEnough(interval: real, perMinute: real) {
    perMinute > 0.0 && interval >= 60.0 / perMinute
  }

  lemma SlowerIsSlowEnough(before: real, after: real, rates: set<real>)
    requires before <= after
    ensures forall r :: r in rates && SlowEnough(before, r) ==> SlowEnough(after, r)
  {
  }

  /** `rates` are all the rates ever asked for, `grants` the clock readings behind the sleeps. */
  class RateLimiter {
    var interval: real
    var nextTime: real
    ghost var turns: seq<Turn>
    ghost var grants: seq<real>
    ghost var punctual: bool
    ghost var rates: set<real>

    ghost predicate Valid()
      reads this
    {
      && interval > 0.0 && Spaced(turns) && Granted(turns, grants, punctual)
      && (forall r :: r in rates ==> SlowEnough(interval, r))
      && (turns != [] ==>
            var last := turns[|turns| - 1];
            nextTime == last.slot + last.interval && 0.0 < last.interval <= interval)
    }

    constructor (perMinute: real)
      requires perMinute > 0.0
      ensures Valid() && interval == 60.0 / perMinute && turns == [] && grants == [] && punctual
      ensures rates == {perMinute}
    {
      interval, nextTime, turns, grants, punctual, rates := 60.0 / perMinute, 0.0, [], [], true, {perMinute};
    }

    /** `now` is read before, `after` behind the sleep, when the turn is granted. Whatever the clock does, turns are
        due an interval apart; as long as it does not run back during a call and no sleep is cut short, every turn
        is granted when it is due. */
    method Wait(now: real, after: real) returns (delay: real)
      requires Valid()
      modifies this
      ensures Valid() && interval == old(interval) && rates == old(rates)
      ensures delay == if old(nextTime) > now then old(nextTime) - now else 0.0
      ensures exists slot: real ::
                && turns == old(turns) + [Turn(slot, interval)] && slot >= after && slot >= old(nextTime)
                && nextTime == slot + interval && (now + delay <= after ==> slot == after)
      ensures grants == old(grants) + [after] && (punctual <==> old(punctual) && now + delay <= after)
    {
      delay := if nextTime - now > 0.0 then nextTime - now else 0.0;
      var slot := if after > nextTime then after else nextTime;
      ghost var before := turns;
      GrantedOneMore(turns, grants, punctual, Turn(slot, interval), after, now + delay <= after);
      nextTime := slot + interval;
      turns, grants := turns + [Turn(slot, interval)], grants + [after];
      punctual := punctual && now + delay <= after;
      hide Granted;
      hide SlowEnough;
      assert turns == before + [Turn(slot, interval)];
    }

    method Share(perMinute: real)
      requires Valid() && perMinute > 0.0
      modifies this`interval, this`rates
      ensures Valid() && rates == old(rates) + {perMinute}
      ensures interval >= old(interval) && interval >= 60.0 / perMinute
      ensures interval == old(interval) || interval == 60.0 / perMinute
    {
      SlowerIsSlowEnough(interval, if 60.0 / perMinute > interval then 60.0 / perMinute else interval, rates);
      if 60.0 / perMinute > interval {
        interval := 60.0 / perMinute;
      }
      rates := rates + {perMinute};
    }
  }

  /** Each origin has a limiter of its own, and who holds one of an origin holds the one on record. */
  predicate OnRecord(shared: map<string, RateLimiter>, held: set<(string, RateLimiter)>) {
    && (forall o, p :: o in shared && p in shared && shared[o] == shared[p] ==> o == p)
    && (forall h :: h in held ==> h.0 in shared && shared[h.0] == h.1)
  }

  lemma HoldsOneMore(shared: map<string, RateLimiter>, held: set<(string, RateLimiter)>, origin: string,
                     limiter: RateLimiter)
    requires OnRecord(shared, held) && if origin in shared then shared[origin] == limiter else limiter !in shared.Values
    ensures OnRecord(shared[origin := limiter], held + {(origin, limiter)})
  {
  }

  /** One limiter per origin, as slow as its slowest user asked for. A limiter that nobody holds any more may
      be forgotten, and the next user of its origin gets a new one. */
  class Registry {
    var shared: map<string, RateLimiter>
    ghost var held: set<(string, RateLimiter)>

    /** Whoever holds a limiter of an origin holds the one on record: there is no second. Each limiter is valid, and
        so as slow as every rate ever asked of it. */
    ghost predicate Valid()
      reads this, shared.Values
    {
      (forall o :: o in shared ==> shared[o].Valid()) && OnRecord(shared, held)
    }

    constructor ()
      ensures Valid() && shared == map[] && held == {}
    {
      shared, held := map[], {};
    }

    method ForOrigin(origin: string, perMinute: real) returns (limiter: RateLimiter)
      requires perMinute > 0.0 && Valid()
      modifies this, if origin in shared then {shared[origin]} else {}
      ensures Valid() && shared == old(shared)[origin := limiter] && held == old(held) + {(origin, limiter)}
      ensures if origin in old(shared)
              then limiter == old(shared)[origin] && limiter.interval >= old(shared[origin].interval)
                && limiter.turns == old(shared[origin].turns) && limiter.nextTime == old(shared[origin].nextTime)
                && limiter.rates == old(shared[origin].rates) + {perMinute}
              else fresh(limiter) && limiter.turns == [] && limiter.rates == {perMinute}
      ensures limiter.interval >= 60.0 / perMinute
    {
      hide OnRecord;
      hide SlowEnough;
      hide Granted;
      hide Spaced;
      if origin in shared {
        limiter := shared[origin];
        HoldsOneMore(shared, held, origin, limiter);
        limiter.Share(perMinute);
        assert shared[origin := limiter] == shared;
      } else {
        limiter := new RateLimiter(perMinute);
        HoldsOneMore(shared, held, origin, limiter);
        shared := shared[origin := limiter];
      }
      held := held + {(origin, limiter)};
    }

    /** The last holder of a limiter lets go of it. */
    ghost method Release(origin: string, limiter: RateLimiter)
      requires Valid()
      modifies this`held
      ensures Valid() && held == old(held) - {(origin, limiter)}
    {
      held := held - {(origin, limiter)};
    }

    /** An origin whose limiter nobody holds is forgotten. */
    method Forget(origin: string)
      requires Valid() && origin in shared && (origin, shared[origin]) !in held
      modifies this`shared
      ensures Valid() && shared == old(shared) - {origin}
    {
      shared := shared - {origin};
    }
  }

  // ---- renewals ----

  predicate Ascending(times: seq<real>) {
    forall i, j :: 0 <= i < j < |times| ==> times[i] <= times[j]
  }

  /** Of any five renewals in a row, the fifth is at least an hour after the first. */
  predicate FourAnHour(times: seq<real>) {
    forall k :: 0 <= k && k + RENEWALS_PER_HOUR < |times| ==> times[k] + HOUR <= times[k + RENEWALS_PER_HOUR]
  }

  function InHalfOpen(times: seq<real>, start: real): set<int> {
    set k | 0 <= k < |times| && start <= times[k] < start + HOUR
  }

  lemma {:induction false} Lowest(s: set<int>, x: int) returns (m: int)
    requires x in s
    ensures m in s && forall k :: k in s ==> m <= k
    decreases |s|
  {
    m := x;
    if y :| y in s && y < x {
      m := Lowest(s - {x}, y);
      assert forall k :: k in s ==> k == x || k in s - {x};
    }
  }

  /** Any window of an hour that leaves out one of its ends holds at most four renewals. */
  lemma AnyHourHoldsFour(times: seq<real>, start: real)
    requires Ascending(times) && FourAnHour(times)
    ensures |InHalfOpen(times, start)| <= RENEWALS_PER_HOUR
  {
    var window := InHalfOpen(times, start);
    if x :| x in window {
      var low := Lowest(window, x);
      forall k | low + RENEWALS_PER_HOUR <= k < |times| ensures times[low] + HOUR <= times[k] {
        assert times[low] + HOUR <= times[low + RENEWALS_PER_HOUR];
        assert low + RENEWALS_PER_HOUR == k || times[low + RENEWALS_PER_HOUR] <= times[k];
      }
      RangeSize(window, low, low + RENEWALS_PER_HOUR - 1);
    }
  }

  predicate FiveWithin(times: seq<real>, k: nat, start: real)
    requires k + RENEWALS_PER_HOUR < |times|
  {
    forall i :: k <= i <= k + RENEWALS_PER_HOUR ==> start <= times[i] <= start + HOUR
  }

  /** With both ends counted, five renewals lie within an hour exactly if the fifth came exactly an hour
      after the first. */
  lemma ClosedHourHoldsFiveIff(times: seq<real>, k: nat)
    requires Ascending(times) && FourAnHour(times) && k + RENEWALS_PER_HOUR < |times|
    ensures (exists start: real :: FiveWithin(times, k, start)) <==> times[k + RENEWALS_PER_HOUR] == times[k] + HOUR
  {
    var last := k + RENEWALS_PER_HOUR;
    assert times[k] + HOUR <= times[last];
    if times[last] == times[k] + HOUR {
      assert FiveWithin(times, k, times[k]);
    }
  }

  /** Renewals a quarter of an hour apart. */
  lemma FiveCanFitAClosedHour()
    ensures var times := [0.0, 900.0, 1800.0, 2700.0, 3600.0];
            Ascending(times) && FourAnHour(times) && FiveWithin(times, 0, 0.0)
  {
    var times := [0.0, 900.0, 1800.0, 2700.0, 3600.0];
    assert times[RENEWALS_PER_HOUR] == times[0] + HOUR;
  }

  lemma LaterRenewal(times: seq<real>, now: real)
    requires Ascending(times) && FourAnHour(times) && forall t :: t in times ==> t <= now
    requires |times| < RENEWALS_PER_HOUR || times[|times| - RENEWALS_PER_HOUR] + HOUR <= now
    ensures Ascending(times + [now]) && FourAnHour(times + [now])
  {
    assert forall i :: 0 <= i < |times| ==> times[i] in times;
  }

  // ---- one call ----

  /** How sending one request ends. */
  datatype Answer = Answered | Unauthorised | Failed

  datatype Act = Sent | LoggedIn | Renewed

  datatype Kind = Ordinary | Login | Refresh

  /** A request as the caller states it. */
  datatype Call = Call(kind: Kind, trading: bool, write: bool, safeRead: bool)

  function Count(acts: seq<Act>, a: Act): nat {
    if acts == [] then 0 else Count(acts[..|acts| - 1], a) + (if acts[|acts| - 1] == a then 1 else 0)
  }

  lemma CountSnoc(acts: seq<Act>, a: Act, b: Act)
    ensures Count(acts + [b], a) == Count(acts, a) + if a == b then 1 else 0
  {
    assert (acts + [b])[..|acts|] == acts;
  }

  lemma CountFew(a: Act)
    ensures Count([], a) == 0 && forall b :: Count([b], a) == if a == b then 1 else 0
  {
    forall b ensures Count([b], a) == if a == b then 1 else 0 {
      CountSnoc([], a, b);
      assert [] + [b] == [b];
    }
  }

  /** What the call meets: how each send ends, whether logging in and renewing work, whether the
      active identity may renew, whether a failed login leaves the session standing, and the clock at the three
      places where it is read. */
  datatype World = World(sends: nat -> Answer, loginWorks: bool, mayRenew: bool, renewalWorks: bool,
                         sessionKept: bool, atCheck: real, atReserve: real, atEnd: real)

  class Connection {
    const enableWrites: bool
    var refreshTimes: seq<real>
    var session: bool
    var expires: real
    ghost var granted: seq<real>
    ghost var dropped: nat
    ghost var clock: real

    /** The deque holds the last renewals; the ones dropped from it are an hour old. */
    ghost predicate Valid()
      reads this
    {
      && Ascending(granted) && FourAnHour(granted) && (forall t :: t in granted ==> t <= clock)
      && dropped <= |granted| <= dropped + RENEWALS_PER_HOUR && refreshTimes == granted[dropped..]
      && (forall k :: 0 <= k < dropped ==> granted[k] <= clock - HOUR)
    }

    constructor (enableWrites: bool, ghost start: real)
      ensures Valid() && granted == [] && clock == start && this.enableWrites == enableWrites && !session
    {
      session, expires := false, 0.0;
      this.enableWrites, refreshTimes, granted, dropped, clock := enableWrites, [], [], 0, start;
    }

    /** Grants a renewal at `now` exactly unless four were granted in the hour up to it. */
    method ReserveRenewal(now: real) returns (ok: bool)
      requires Valid() && clock <= now
      modifies this`refreshTimes, this`granted, this`dropped, this`clock
      ensures Valid() && clock == now
      ensures ok <==> (|old(granted)| < RENEWALS_PER_HOUR
                       || old(granted)[|old(granted)| - RENEWALS_PER_HOUR] <= now - HOUR)
      ensures granted == if ok then old(granted) + [now] else old(granted)
    {
      hide FourAnHour;
      hide Ascending;
      clock := now;
      while refreshTimes != [] && refreshTimes[0] <= now - HOUR
        invariant clock == now && granted == old(granted)
        invariant dropped <= |granted| <= dropped + RENEWALS_PER_HOUR && refreshTimes == granted[dropped..]
        invariant forall k :: 0 <= k < dropped ==> granted[k] <= now - HOUR
        decreases |refreshTimes|
      {
        refreshTimes := refreshTimes[1..];
        dropped := dropped + 1;
      }
      if |refreshTimes| >= RENEWALS_PER_HOUR {
        return false;
      }
      StillRecent(granted, dropped, now);
      LaterRenewal(granted, now);
      refreshTimes := refreshTimes + [now];
      granted := granted + [now];
      ok := true;
    }

    /** One renewal, if there is a session, it may be renewed and the hour has room for it. */
    method Renew(w: World, acts: seq<Act>) returns (ok: bool, more: seq<Act>)
      requires Valid() && clock <= w.atReserve
      modifies this
      ensures Valid()
      ensures Count(more, Sent) == Count(acts, Sent)
      ensures Count(more, Renewed) == Count(acts, Renewed) + |granted| - |old(granted)|
      ensures (more == acts && granted == old(granted) && !ok)
           || (more == acts + [Renewed] && granted == old(granted) + [w.atReserve])
      ensures ok ==> session && w.renewalWorks && more == acts + [Renewed]
    {
      if !session || !w.mayRenew {
        return false, acts;
      }
      var room := ReserveRenewal(w.atReserve);
      if !room {
        return false, acts;
      }
      more := acts + [Renewed];
      CountSnoc(acts, Sent, Renewed);
      CountSnoc(acts, Renewed, Renewed);
      expires := if w.renewalWorks then w.atEnd + 900.0 else 0.0;
      session := w.renewalWorks || w.sessionKept;
      ok := w.renewalWorks;
    }

    /** One call. It is sent at most twice and renews at most once; it is sent again only as a safe read
        that was refused for authentication, after a renewal; a write that is switched off sends nothing. */
    method Request(c: Call, w: World) returns (returned: bool, acts: seq<Act>)
      requires Valid() && clock <= w.atReserve
      modifies this
      ensures Valid()
      ensures c.write && !enableWrites ==> acts == [] && !returned
      ensures Count(acts, Renewed) <= 1 && |granted| == |old(granted)| + Count(acts, Renewed)
      ensures Count(acts, Sent) <= 2
      ensures Count(acts, Sent) == 2 ==>
                c.safeRead && c.trading && w.sends(0) == Unauthorised && Count(acts, Renewed) == 1
      ensures returned && c.kind == Ordinary ==>
                Count(acts, Sent) > 0 && w.sends(Count(acts, Sent) - 1) == Answered && acts[|acts| - 1] == Sent
      ensures c.kind == Ordinary && !returned && Count(acts, Sent) > 0 ==> w.sends(Count(acts, Sent) - 1) != Answered
    {
      hide FourAnHour;
      hide Ascending;
      acts, returned := [], false;
      CountFew(Sent);
      CountFew(Renewed);
      hide Count;
      if c.write && !enableWrites {
        return;
      }
      if c.kind == Login {
        acts, returned := [LoggedIn], w.loginWorks;
        session := w.loginWorks || (session && w.sessionKept);
        return;
      }
      if c.kind == Refresh {
        returned, acts := Renew(w, acts);
        return;
      }
      var refreshed := false;
      if c.trading {
        if !session {
          acts := [LoggedIn];
          session := w.loginWorks;
          if !session {
            return;
          }
        } else if w.atCheck >= expires {
          var ok;
          ok, acts := Renew(w, acts);
          if !ok {
            return;
          }
          refreshed := true;
        }
      }
      CountSnoc(acts, Sent, Sent);
      CountSnoc(acts, Renewed, Sent);
      acts := acts + [Sent];
      if w.sends(0) != Unauthorised {
        returned := w.sends(0) == Answered;
        return;
      }
      if !c.trading || !c.safeRead || refreshed {
        return;
      }
      var ok;
      ok, acts := Renew(w, acts);
      if !ok {
        return;
      }
      CountSnoc(acts, Sent, Sent);
      CountSnoc(acts, Renewed, Sent);
      acts := acts + [Sent];
      returned := w.sends(1) == Answered;
    }
  }

  lemma StillRecent(times: seq<real>, dropped: nat, now: real)
    requires dropped <= |times| < dropped + RENEWALS_PER_HOUR
    requires forall k :: 0 <= k < dropped ==> times[k] <= now - HOUR
    ensures |times| < RENEWALS_PER_HOUR || times[|times| - RENEWALS_PER_HOUR] + HOUR <= now
  {
  }
}
