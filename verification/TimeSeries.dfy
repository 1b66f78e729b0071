/** Metrics per application in circular buffers (internal/monitor/timeseries.go). */
module TimeSeries {

  const DEFAULT_TS_CAPACITY := 5760

  datatype TimePoint = TimePoint(timestamp: int, cpu: real, memory: int, networkIn: int, networkOut: int)

  /** The last n points of a history, or all of it if it is shorter. */
  function Last(history: seq<TimePoint>, n: nat): (r: seq<TimePoint>) {
    if |history| <= n then history else history[|history| - n..]
  }

  /** The points after the cutoff, in their order. */
  function Newer(points: seq<TimePoint>, cutoff: int): seq<TimePoint> {
    if points == [] then []
    else Newer(points[..|points| - 1], cutoff) +
         if points[|points| - 1].timestamp > cutoff then [points[|points| - 1]] else []
  }

  /** A position at most once around the buffer. */
  function Wrap(i: nat, n: nat): (r: nat)
    requires i < 2 * n
    ensures r == if i < n then i else i - n
  {
    i % n
  }

  class RingBuffer {
    const data: array<TimePoint>
    const cap: nat
    var write: nat
    var count: nat
    ghost var history: seq<TimePoint>

    /** Oldest first. */
    ghost function Contents(): seq<TimePoint>
      requires data.Length == cap && write <= cap && count <= cap
      reads this, data
    {
      if count < cap then data[..count] else data[write..] + data[..write]
    }

    ghost predicate Valid()
      reads this, data
    {
      && 0 < cap == data.Length
      && write < cap && count <= cap
      && (count < cap ==> write == count)
      && Contents() == Last(history, cap)
    }

    constructor (capacity: nat)
      requires capacity > 0
      ensures Valid() && history == [] && cap == capacity && fresh(data)
    {
      data := new TimePoint[capacity](_ => TimePoint(0, 0.0, 0, 0, 0));
      cap := capacity;
      write, count, history := 0, 0, [];
    }

    method Append(p: TimePoint)
      requires Valid()
      modifies this, data
      ensures Valid() && history == old(history) + [p]
    {
      hide Wrap;
      ghost var before := Contents();
      data[write] := p;
      write := Wrap(write + 1, cap);
      if count < cap { count := count + 1; }
      history := history + [p];
      assert Contents() == (if |before| < cap then before else before[1..]) + [p];
    }

    /** Exactly those of the last cap points that are after the cutoff, oldest first. */
    method Query(cutoff: int) returns (result: seq<TimePoint>)
      requires Valid()
      ensures result == Newer(Last(history, cap), cutoff)
    {
      hide Wrap;
      result := [];
      if count == 0 { return; }
      var start := 0;
      if count == cap { start := write; }
      for i := 0 to count
        invariant result == Newer(Contents()[..i], cutoff)
      {
        var idx := Wrap(start + i, cap);
        assert data[idx] == Contents()[i];
        assert Contents()[..i + 1][..i] == Contents()[..i];
        if data[idx].timestamp > cutoff {
          result := result + [data[idx]];
        }
      }
      assert Contents()[..count] == Contents();
    }
  }

  class TimeSeriesStore {
    var apps: map<string, RingBuffer>
    const capacity: nat
    ghost var Repr: set<object>

    ghost predicate Valid()
      reads this, Repr
      ensures Valid() ==> this in Repr
    {
      && this in Repr && capacity > 0
      && (forall a :: a in apps ==>
            apps[a] in Repr && apps[a].data in Repr && apps[a].Valid() && apps[a].cap == capacity)
      && (forall a, b :: a in apps && b in apps && apps[a].data == apps[b].data ==> a == b)
    }

    /** Everything recorded for an application so far. */
    ghost function HistoryOf(app: string): seq<TimePoint>
      requires Valid()
      reads this, Repr
    {
      if app in apps then apps[app].history else []
    }

    constructor (capacity: int)
      ensures Valid() && fresh(Repr) && apps == map[]
      ensures this.capacity == if capacity <= 0 then DEFAULT_TS_CAPACITY else capacity
    {
      this.capacity := if capacity <= 0 then DEFAULT_TS_CAPACITY else capacity;
      apps := map[];
      Repr := {this};
    }

    method EnsureBuffer(app: string)
      requires Valid()
      modifies this
      ensures Valid() && fresh(Repr - old(Repr)) && app in apps
      ensures forall a :: HistoryOf(a) == old(HistoryOf(a))
    {
      hide Wrap, Last, RingBuffer.Contents, RingBuffer.Valid;
      if app !in apps {
        var rb := new RingBuffer(capacity);
        apps := apps[app := rb];
        Repr := Repr + {rb, rb.data};
      }
    }

    /** Recording for one application leaves what is known of every other as it was. */
    method Record(app: string, point: TimePoint)
      requires Valid()
      modifies Repr
      ensures Valid() && fresh(Repr - old(Repr))
      ensures HistoryOf(app) == old(HistoryOf(app)) + [point]
      ensures forall a :: a != app ==> HistoryOf(a) == old(HistoryOf(a))
    {
      hide Wrap, Last, RingBuffer.Contents, RingBuffer.Valid;
      EnsureBuffer(app);
      var rb := apps[app];
      rb.Append(point);
    }

    method Query(app: string, now: int, period: int) returns (result: seq<TimePoint>)
      requires Valid()
      ensures result == Newer(Last(HistoryOf(app), capacity), now - period)
    {
      hide Wrap, RingBuffer.Contents, RingBuffer.Valid;
      if app !in apps { return []; }
      result := apps[app].Query(now - period);
    }
  }

  // ---- What the answers mean ----

  /** A point of the answer is one of the last points and after the cutoff, and every such point is there. */
  lemma {:induction false} NewerMembers(points: seq<TimePoint>, cutoff: int, p: TimePoint)
    ensures p in Newer(points, cutoff) <==> p in points && p.timestamp > cutoff
  {
    if points != [] {
      NewerMembers(points[..|points| - 1], cutoff, p);
      assert points == points[..|points| - 1] + [points[|points| - 1]];
    }
  }

  ghost predicate InTimeOrder(points: seq<TimePoint>) {
    forall i, j :: 0 <= i < j < |points| ==> points[i].timestamp <= points[j].timestamp
  }

  /** If points are recorded in time order, the answer is a suffix of the history, so a longer period
      answers with all of a shorter one. */
  lemma {:induction false} NewerIsSuffix(points: seq<TimePoint>, cutoff: int)
    requires InTimeOrder(points)
    ensures |Newer(points, cutoff)| <= |points|
    ensures Newer(points, cutoff) == points[|points| - |Newer(points, cutoff)|..]
  {
    if points != [] {
      var init, last := points[..|points| - 1], points[|points| - 1];
      NewerIsSuffix(init, cutoff);
      if last.timestamp <= cutoff {
        if Newer(init, cutoff) != [] { NewerMembers(init, cutoff, Newer(init, cutoff)[0]); }
      }
    }
  }
}
