/** The per-client fixed-window rate limiter and its eviction goroutine (internal/server/middleware.go).
    Times are nanoseconds of a clock that never goes back; each call states its own readings of it. */
module RateLimiter {

  const MINUTE := 60_000_000_000

  datatype Bucket = Bucket(tokens: int, lastReset: int)

  datatype AllowResult = AllowResult(allowed: bool, remaining: int, resetAt: int)

  type Clients = map<string, Bucket>

  predicate Expired(c: Clients, ip: string, now: int) {
    ip !in c || now - c[ip].lastReset > MINUTE
  }

  /** One request: the clock is read for the check, for the stamp of a new window and for the answer. */
  function AfterAllow(rpm: int, c: Clients, ip: string, check: int, stamp: int): Clients {
    if Expired(c, ip, check) then c[ip := Bucket(rpm - 1, stamp)]
    else if c[ip].tokens <= 0 then c
    else c[ip := c[ip].(tokens := c[ip].tokens - 1)]
  }

  function AllowAnswer(rpm: int, c: Clients, ip: string, check: int, report: int): AllowResult {
    if Expired(c, ip, check) then AllowResult(true, rpm - 1, report + MINUTE)
    else if c[ip].tokens <= 0 then AllowResult(false, 0, c[ip].lastReset + MINUTE)
    else AllowResult(true, c[ip].tokens - 1, c[ip].lastReset + MINUTE)
  }

  /** The eviction pass looks at the clock anew for each entry it visits. */
  predicate Evicted(c: Clients, readings: map<string, int>, ip: string)
    requires ip in c
  {
    ip in readings && readings[ip] - c[ip].lastReset > 2 * MINUTE
  }

  function AfterCleanup(c: Clients, readings: map<string, int>): Clients {
    map ip | ip in c && !Evicted(c, readings, ip) :: c[ip]
  }

  class Limiter {
    const rpm: int
    var clients: Clients

    constructor (rpm: int)
      ensures this.rpm == rpm && clients == map[]
    {
      this.rpm := rpm;
      clients := map[];
    }

    method Allow(ip: string, check: int, stamp: int, report: int) returns (r: AllowResult)
      modifies this`clients
      ensures clients == AfterAllow(rpm, old(clients), ip, check, stamp)
      ensures r == AllowAnswer(rpm, old(clients), ip, check, report)
    {
      if ip !in clients || check - clients[ip].lastReset > MINUTE {
        clients := clients[ip := Bucket(rpm - 1, stamp)];
        return AllowResult(true, rpm - 1, report + MINUTE);
      }
      var b := clients[ip];
      if b.tokens <= 0 {
        return AllowResult(false, 0, b.lastReset + MINUTE);
      }
      b := b.(tokens := b.tokens - 1);
      clients := clients[ip := b];
      return AllowResult(true, b.tokens, b.lastReset + MINUTE);
    }

    method Cleanup(readings: map<string, int>)
      requires clients.Keys <= readings.Keys
      modifies this`clients
      ensures clients == AfterCleanup(old(clients), readings)
    {
      var rest := clients.Keys;
      while rest != {}
        invariant rest <= old(clients).Keys
        invariant clients == map ip | ip in old(clients) && (ip in rest || !Evicted(old(clients), readings, ip)) ::
                                     old(clients)[ip]
        decreases |rest|
      {
        var ip :| ip in rest;
        rest := rest - {ip};
        if readings[ip] - clients[ip].lastReset > 2 * MINUTE {
          clients := clients - {ip};
        }
      }
    }
  }

  // ---- Runs: any interleaving of requests and eviction passes ----

  datatype Event =
    | Request(ip: string, check: int, stamp: int, report: int)
    | Cleaning(from: int, to: int, readings: map<string, int>)

  function Begin(e: Event): int { if e.Request? then e.check else e.from }

  function End(e: Event): int { if e.Request? then e.report else e.to }

  predicate WellTimed(e: Event) {
    match e
    case Request(_, check, stamp, report) => check <= stamp <= report
    case Cleaning(from, to, readings) => from <= to && forall ip :: ip in readings ==> from <= readings[ip] <= to
  }

  /** The mutex makes events follow one another; the clock does not go back. */
  ghost predicate Timed(events: seq<Event>, now: int) {
    events != [] ==> WellTimed(events[0]) && now <= Begin(events[0]) && Timed(events[1..], End(events[0]))
  }

  function After(rpm: int, c: Clients, e: Event): Clients {
    match e
    case Request(ip, check, stamp, _) => AfterAllow(rpm, c, ip, check, stamp)
    case Cleaning(_, _, readings) => AfterCleanup(c, readings)
  }

  /** The answers to the requests of a run, in order. */
  ghost function Answers(rpm: int, c: Clients, events: seq<Event>): seq<AllowResult>
    decreases |events|
  {
    if events == [] then []
    else
      (if events[0].Request? then [AllowAnswer(rpm, c, events[0].ip, events[0].check, events[0].report)] else []) +
      Answers(rpm, After(rpm, c, events[0]), events[1..])
  }

  ghost function Requests(events: seq<Event>): seq<Event> {
    if events == [] then []
    else (if events[0].Request? then [events[0]] else []) + Requests(events[1..])
  }

  // ---- The eviction pass cannot be observed ----

  /** c is d without some entries whose window is over. */
  ghost predicate EvictedFrom(c: Clients, d: Clients, now: int) {
    && (forall ip :: ip in c ==> ip in d && d[ip] == c[ip])
    && (forall ip :: ip in d && ip !in c ==> now - d[ip].lastReset > MINUTE)
  }

  lemma {:induction false} SameAnswers(rpm: int, c: Clients, d: Clients, events: seq<Event>, now: int)
    requires Timed(events, now) && EvictedFrom(c, d, now)
    ensures Answers(rpm, c, events) == Answers(rpm, d, Requests(events))
    decreases |events|
  {
    if events != [] {
      var e := events[0];
      if e.Request? {
        SameAnswers(rpm, After(rpm, c, e), After(rpm, d, e), events[1..], End(e));
        assert Requests(events)[0] == e && Requests(events)[1..] == Requests(events[1..]);
      } else {
        SameAnswers(rpm, After(rpm, c, e), d, events[1..], End(e));
        assert Requests(events) == Requests(events[1..]);
      }
    }
  }

  /** Removing every eviction pass from a run changes none of its answers. */
  lemma CleanupUnobservable(rpm: int, c: Clients, events: seq<Event>, now: int)
    requires Timed(events, now)
    ensures Answers(rpm, c, events) == Answers(rpm, c, Requests(events))
  {
    SameAnswers(rpm, c, c, events, now);
  }

  // ---- How much one client gets ----

  function Max(a: int, b: int): int { if a > b then a else b }

  /** What one window grants: its first request is always allowed. */
  function Capacity(rpm: int): int { Max(rpm, 1) }

  ghost predicate CountedIn(rpm: int, c: Clients, e: Event, ip: string, from: int) {
    && e.Request? && e.ip == ip && from <= e.check <= from + MINUTE
    && AllowAnswer(rpm, c, ip, e.check, e.report).allowed
  }

  /** Allowed requests of one client that arrive within the minute that begins at from. */
  ghost function AllowedIn(rpm: int, c: Clients, events: seq<Event>, ip: string, from: int): nat
    decreases |events|
  {
    if events == [] then 0
    else (if CountedIn(rpm, c, events[0], ip, from) then 1 else 0) +
         AllowedIn(rpm, After(rpm, c, events[0]), events[1..], ip, from)
  }

  ghost predicate Plausible(rpm: int, c: Clients) {
    forall ip :: ip in c ==> c[ip].tokens <= rpm - 1
  }

  function TokensLeft(c: Clients, ip: string): int {
    if ip in c then Max(c[ip].tokens, 0) else 0
  }

  /** The most that can still be allowed within the minute, seen from the time now. */
  ghost function Budget(rpm: int, c: Clients, ip: string, from: int, now: int): int {
    if now > from + MINUTE then 0
    else if ip in c && c[ip].lastReset >= from then TokensLeft(c, ip)
    else if now >= from then TokensLeft(c, ip) + Capacity(rpm)
    else 2 * Capacity(rpm) - 1
  }

  lemma BudgetStep(rpm: int, c: Clients, e: Event, ip: string, from: int, now: int)
    requires Plausible(rpm, c) && WellTimed(e) && now <= Begin(e)
    ensures Plausible(rpm, After(rpm, c, e))
    ensures (if CountedIn(rpm, c, e, ip, from) then 1 else 0) +
            Budget(rpm, After(rpm, c, e), ip, from, End(e)) <= Budget(rpm, c, ip, from, now)
  {
  }

  lemma {:induction false} AllowedWithinBudget(rpm: int, c: Clients, events: seq<Event>, ip: string,
                                               from: int, now: int)
    requires Timed(events, now) && Plausible(rpm, c)
    ensures AllowedIn(rpm, c, events, ip, from) <= Budget(rpm, c, ip, from, now)
    decreases |events|
  {
    hide Budget, CountedIn, After, Plausible;
    if events == [] {
      BudgetNotNegative(rpm, c, ip, from, now);
    } else {
      BudgetStep(rpm, c, events[0], ip, from, now);
      AllowedWithinBudget(rpm, After(rpm, c, events[0]), events[1..], ip, from, End(events[0]));
    }
  }

  lemma BudgetNotNegative(rpm: int, c: Clients, ip: string, from: int, now: int)
    ensures Budget(rpm, c, ip, from, now) >= 0
  {
  }

  /** In no minute does a client get more than twice its rate, less one. */
  lemma AtMostTwiceTheRate(rpm: int, events: seq<Event>, ip: string, from: int, now: int)
    requires Timed(events, now)
    ensures AllowedIn(rpm, map[], events, ip, from) <= 2 * Capacity(rpm) - 1
  {
    AllowedWithinBudget(rpm, map[], events, ip, from, now);
  }

  /** The requests of a client while its window lasts. */
  ghost predicate WithinWindow(events: seq<Event>, ip: string, lastReset: int) {
    forall e :: e in events ==>
      (e.Request? && e.ip == ip ==> e.check - lastReset <= MINUTE) &&
      (e.Cleaning? && ip in e.readings ==> e.readings[ip] - lastReset <= 2 * MINUTE)
  }

  ghost function RequestsOf(events: seq<Event>, ip: string): nat {
    if events == [] then 0
    else (if events[0].Request? && events[0].ip == ip then 1 else 0) + RequestsOf(events[1..], ip)
  }

  ghost function AllowedOf(rpm: int, c: Clients, events: seq<Event>, ip: string): nat
    decreases |events|
  {
    if events == [] then 0
    else
      (if events[0].Request? && events[0].ip == ip &&
          AllowAnswer(rpm, c, ip, events[0].check, events[0].report).allowed then 1 else 0) +
      AllowedOf(rpm, After(rpm, c, events[0]), events[1..], ip)
  }

  /** Within a window exactly as many requests are allowed as tokens are left, or all if there are fewer. */
  lemma {:induction false} WindowIsExact(rpm: int, c: Clients, events: seq<Event>, ip: string)
    requires ip in c && WithinWindow(events, ip, c[ip].lastReset)
    ensures AllowedOf(rpm, c, events, ip) ==
              if RequestsOf(events, ip) <= TokensLeft(c, ip) then RequestsOf(events, ip) else TokensLeft(c, ip)
    decreases |events|
  {
    if events != [] {
      assert events[0] in events;
      assert forall e :: e in events[1..] ==> e in events;
      WindowIsExact(rpm, After(rpm, c, events[0]), events[1..], ip);
    }
  }

  // ---- The bound is reached ----

  function At(ip: string, time: int): Event { Request(ip, time, time, time) }

  /** n requests at one time. */
  function Burst(ip: string, time: int, n: nat): seq<Event> {
    if n == 0 then [] else [At(ip, time)] + Burst(ip, time, n - 1)
  }

  /** One request that opens a window, then all that is left of it in its last moment, and all of the next
      window right behind it. */
  function WorstRun(ip: string, rpm: nat): seq<Event>
    requires rpm >= 1
  {
    [At(ip, 0)] + (Burst(ip, MINUTE, rpm - 1) + Burst(ip, MINUTE + 1, rpm))
  }

  lemma {:induction false} BurstTimed(ip: string, time: int, n: nat, rest: seq<Event>, now: int)
    requires now <= time && Timed(rest, if n == 0 then now else time)
    ensures Timed(Burst(ip, time, n) + rest, now)
    decreases n
  {
    if n == 0 {
      assert Burst(ip, time, n) + rest == rest;
    } else {
      BurstTimed(ip, time, n - 1, rest, time);
      assert (Burst(ip, time, n) + rest)[1..] == Burst(ip, time, n - 1) + rest;
    }
  }

  /** Within a window, a burst of as many requests as tokens are left is allowed and uses them up. */
  lemma {:induction false} BurstAllowed(rpm: int, c: Clients, ip: string, time: int, n: nat, rest: seq<Event>,
                                         from: int)
    requires ip in c && time - c[ip].lastReset <= MINUTE && c[ip].tokens >= n && from <= time <= from + MINUTE
    ensures var used := c[ip := c[ip].(tokens := c[ip].tokens - n)];
            AllowedIn(rpm, c, Burst(ip, time, n) + rest, ip, from) == n + AllowedIn(rpm, used, rest, ip, from)
    decreases n
  {
    if n == 0 {
      assert Burst(ip, time, n) + rest == rest;
      assert c[ip := c[ip].(tokens := c[ip].tokens - n)] == c;
    } else {
      var next := After(rpm, c, At(ip, time));
      assert next == c[ip := c[ip].(tokens := c[ip].tokens - 1)];
      BurstAllowed(rpm, next, ip, time, n - 1, rest, from);
      assert next[ip := next[ip].(tokens := next[ip].tokens - (n - 1))] == c[ip := c[ip].(tokens := c[ip].tokens - n)];
      assert (Burst(ip, time, n) + rest)[1..] == Burst(ip, time, n - 1) + rest;
    }
  }

  /** For every rate there is a run in which a client gets as much in a minute as the bound allows. */
  lemma BoundIsTight(rpm: nat, ip: string)
    requires rpm >= 1
    ensures Timed(WorstRun(ip, rpm), 0)
    ensures AllowedIn(rpm, map[], WorstRun(ip, rpm), ip, 1) == 2 * Capacity(rpm) - 1
  {
    WorstTimed(ip, rpm);
    var late, next := Burst(ip, MINUTE, rpm - 1), Burst(ip, MINUTE + 1, rpm);
    var c1: Clients := map[ip := Bucket(rpm - 1, 0)];
    var c2: Clients := map[ip := Bucket(0, 0)];
    assert After(rpm, map[], At(ip, 0)) == c1;
    assert WorstRun(ip, rpm)[1..] == late + next;
    BurstAllowed(rpm, c1, ip, MINUTE, rpm - 1, next, 1);
    assert c1[ip := c1[ip].(tokens := 0)] == c2;
    NextWindow(rpm, c2, ip);
  }

  lemma WorstTimed(ip: string, rpm: nat)
    requires rpm >= 1
    ensures Timed(WorstRun(ip, rpm), 0)
  {
    var next := Burst(ip, MINUTE + 1, rpm);
    assert next + [] == next;
    BurstTimed(ip, MINUTE + 1, rpm, [], if rpm == 1 then 0 else MINUTE);
    BurstTimed(ip, MINUTE, rpm - 1, next, 0);
    assert WorstRun(ip, rpm)[1..] == Burst(ip, MINUTE, rpm - 1) + next;
  }

  lemma NextWindow(rpm: nat, c: Clients, ip: string)
    requires rpm >= 1 && ip in c && c[ip].lastReset == 0
    ensures AllowedIn(rpm, c, Burst(ip, MINUTE + 1, rpm), ip, 1) == rpm
  {
    var burst := Burst(ip, MINUTE + 1, rpm);
    var renewed := c[ip := Bucket(rpm - 1, MINUTE + 1)];
    assert After(rpm, c, At(ip, MINUTE + 1)) == renewed;
    assert burst[1..] == Burst(ip, MINUTE + 1, rpm - 1) + [];
    BurstAllowed(rpm, renewed, ip, MINUTE + 1, rpm - 1, [], 1);
  }
}
