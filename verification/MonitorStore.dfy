/** The measurement store of the resource monitor: buffered, collected and recent data. */
module MonitorStore {

  /** Values by cache size and by bandwidth. */
  type Grid<T> = map<int, map<int, T>>

  predicate Has<T>(g: Grid<T>, c: int, b: int)
  {
    c in g && b in g[c]
  }

  /** The distinct (cache, bandwidth) keys. */
  ghost function Pairs<T>(g: Grid<T>): set<(int, int)>
  {
    set c, b | c in g && b in g[c] :: (c, b)
  }

  /** `setdefault` at both levels. */
  function WithDefault<T>(g: Grid<T>, c: int, b: int, x: T): (r: Grid<T>)
    ensures Has(r, c, b) && r[c][b] == (if Has(g, c, b) then g[c][b] else x)
  {
    var row := if c in g then g[c] else map[];
    g[c := if b in row then row else row[b := x]]
  }

  function Put<T>(g: Grid<T>, c: int, b: int, x: T): Grid<T>
    requires c in g
  {
    g[c := g[c][b := x]]
  }

  /** g' is g with x at one key. */
  ghost predicate Changed<T(!new)>(g: Grid<T>, c: int, b: int, x: T, g': Grid<T>)
  {
    && Has(g', c, b) && g'[c][b] == x
    && forall c', b' :: (c', b') != (c, b) ==> (Has(g', c', b') <==> Has(g, c', b')) && (Has(g, c', b') ==> g'[c'][b'] == g[c'][b'])
  }

  lemma PutChanges<T(!new)>(g: Grid<T>, c: int, b: int, x: T, y: T)
    ensures Changed(g, c, b, y, Put(WithDefault(g, c, b, x), c, b, y))
    ensures Changed(g, c, b, if Has(g, c, b) then g[c][b] else x, WithDefault(g, c, b, x))
  {
  }

  // ----- one application's collected data -----------------------------------------

  datatype Record = Record(perf: real, iteration: nat)

  datatype AppData = AppData(totalRecord: nat, totalDatapoint: nat, datapoints: Grid<seq<Record>>, lastUpdated: Grid<nat>,
                             lastUpdateIteration: nat, lastMrc: seq<real>)

  /** Every stored record, by key and position. */
  ghost function Records(g: Grid<seq<Record>>): set<(int, int, int)>
  {
    set c, b, i | c in g && b in g[c] && 0 <= i < |g[c][b]| :: (c, b, i)
  }

  /** A key's records carry strictly increasing times, the last of them its time of update. */
  predicate HistoryOk(records: seq<Record>, updated: nat, now: nat)
  {
    && |records| > 0 && records[|records| - 1].iteration == updated <= now
    && forall i, j :: 0 <= i < j < |records| ==> records[i].iteration < records[j].iteration
  }

  ghost predicate AppOk(a: AppData, now: nat)
  {
    && a.totalDatapoint == |Pairs(a.datapoints)|
    && a.totalRecord == |Records(a.datapoints)|
    && (forall c, b :: Has(a.lastUpdated, c, b) <==> Has(a.datapoints, c, b))
    && (forall c, b :: Has(a.datapoints, c, b) ==> HistoryOk(a.datapoints[c][b], a.lastUpdated[c][b], now))
    && a.lastUpdateIteration <= now
  }

  const NO_DATA := AppData(0, 0, map[], map[], 0, [])

  /** Consuming one key: a new row and a new cell are created as needed, the record is appended
    and both counters move. */
  function AddRecord(a: AppData, c: int, b: int, perf: real, now: nat, mrc: seq<real>): AppData
  {
    var isNew := c !in a.datapoints || b !in a.datapoints[c];
    var points, updated := WithDefault(a.datapoints, c, b, []), WithDefault(a.lastUpdated, c, b, 0);
    a.(totalRecord := a.totalRecord + 1,
       totalDatapoint := if isNew then a.totalDatapoint + 1 else a.totalDatapoint,
       datapoints := Put(points, c, b, points[c][b] + [Record(perf, now)]),
       lastUpdated := Put(updated, c, b, now),
       lastMrc := mrc)
  }

  lemma AddRecordEffect(a: AppData, c: int, b: int, perf: real, now: nat, mrc: seq<real>)
    ensures var r := AddRecord(a, c, b, perf, now, mrc);
            && Changed(a.datapoints, c, b, (if Has(a.datapoints, c, b) then a.datapoints[c][b] else []) + [Record(perf, now)], r.datapoints)
            && Changed(a.lastUpdated, c, b, now, r.lastUpdated)
            && r.totalRecord == a.totalRecord + 1 && r.lastUpdateIteration == a.lastUpdateIteration && r.lastMrc == mrc
            && r.totalDatapoint == a.totalDatapoint + if Has(a.datapoints, c, b) then 0 else 1
  {
    var points := WithDefault(a.datapoints, c, b, []);
    PutChanges(a.datapoints, c, b, [], points[c][b] + [Record(perf, now)]);
    PutChanges(a.lastUpdated, c, b, 0, now);
    hide Changed, WithDefault, Put;
  }

  lemma InPairs<T>(g: Grid<T>, p: (int, int))
    ensures p in Pairs(g) <==> Has(g, p.0, p.1)
  {
  }

  lemma PairsGrow<T(!new)>(g: Grid<T>, g': Grid<T>, c: int, b: int, x: T)
    requires Changed(g, c, b, x, g')
    ensures |Pairs(g')| == |Pairs(g)| + if Has(g, c, b) then 0 else 1
  {
    hide Pairs;
    forall p: (int, int) ensures p in Pairs(g') <==> p in Pairs(g) || p == (c, b) {
      InPairs(g, p);
      InPairs(g', p);
    }
    InPairs(g, (c, b));
    if Has(g, c, b) {
      assert Pairs(g') == Pairs(g);
    } else {
      assert Pairs(g') == Pairs(g) + {(c, b)};
    }
  }

  /** Position i of a key's records. */
  predicate Stored(g: Grid<seq<Record>>, c: int, b: int, i: int)
  {
    Has(g, c, b) && 0 <= i < |g[c][b]|
  }

  lemma InRecords(g: Grid<seq<Record>>, p: (int, int, int))
    ensures p in Records(g) <==> Stored(g, p.0, p.1, p.2)
  {
  }

  lemma RecordsGrow(g: Grid<seq<Record>>, g': Grid<seq<Record>>, c: int, b: int, x: Record)
    requires Changed(g, c, b, (if Has(g, c, b) then g[c][b] else []) + [x], g')
    ensures |Records(g')| == |Records(g)| + 1
  {
    hide Records;
    var n := if Has(g, c, b) then |g[c][b]| else 0;
    forall p: (int, int, int) ensures p in Records(g') <==> p in Records(g) || p == (c, b, n) {
      InRecords(g, p);
      InRecords(g', p);
      if (p.0, p.1) != (c, b) {
        assert Stored(g', p.0, p.1, p.2) <==> Stored(g, p.0, p.1, p.2);
      }
    }
    InRecords(g, (c, b, n));
    assert Records(g') == Records(g) + {(c, b, n)};
  }

  lemma HistoryAppend(records: seq<Record>, updated: nat, perf: real, now: nat)
    requires records == [] || (HistoryOk(records, updated, updated) && updated < now)
    ensures HistoryOk(records + [Record(perf, now)], now, now)
  {
  }

  lemma AddRecordKeepsOk(a: AppData, c: int, b: int, perf: real, now: nat, mrc: seq<real>)
    requires AppOk(a, now) && (Has(a.datapoints, c, b) ==> a.lastUpdated[c][b] < now)
    ensures AppOk(AddRecord(a, c, b, perf, now, mrc), now)
  {
    hide AddRecord;
    var r := AddRecord(a, c, b, perf, now, mrc);
    AddRecordEffect(a, c, b, perf, now, mrc);
    PairsGrow(a.datapoints, r.datapoints, c, b, r.datapoints[c][b]);
    RecordsGrow(a.datapoints, r.datapoints, c, b, Record(perf, now));
    if Has(a.datapoints, c, b) {
      HistoryAppend(a.datapoints[c][b], a.lastUpdated[c][b], perf, now);
    }
  }

  // ----- the store ----------------------------------------------------------------

  type Key = (int, int, int)

  /** Perf values buffered for an application, by cache size and bandwidth. */
  type Buffer = Grid<seq<int>>

  /** What is computed from measurements: the median of a list, and the weighted merge of two
    miss-rate curves and of two values. */
  datatype Statistics = Statistics(median: seq<int> -> real, merge: (seq<real>, seq<real>) -> seq<real>, blend: (real, real) -> real)

  /** One consumed round of an application's data. */
  type Snapshot = map<(int, int), real>

  const RECENT_WINDOW := 24

  predicate Buffered<T>(m: map<int, Grid<T>>, u: int, c: int, b: int)
  {
    u in m && Has(m[u], c, b)
  }

  function RowOf<T>(m: map<int, Grid<T>>, u: int): Grid<T>
  {
    if u in m then m[u] else map[]
  }

  /** No measurement list is empty or repeats a value, so the zero that stands for an empty
    list is never recorded. */
  predicate ListOk(perfs: seq<int>)
  {
    |perfs| > 0 && forall i :: 0 < i < |perfs| ==> perfs[i - 1] != perfs[i]
  }

  ghost predicate BufferOk(data: map<int, Buffer>, mrcs: map<int, Grid<seq<real>>>)
  {
    forall u, c, b :: Buffered(data, u, c, b) ==> Buffered(mrcs, u, c, b) && ListOk(data[u][c][b])
  }

  ghost predicate CollectedOk(collected: map<int, AppData>, now: nat)
  {
    forall u :: u in collected ==> AppOk(collected[u], now)
  }

  predicate RecentOk(recent: map<int, seq<Snapshot>>)
  {
    forall u :: u in recent ==> |recent[u]| <= RECENT_WINDOW + 1
  }

  /** The keys of everything buffered. */
  function Keys(data: map<int, Buffer>): set<Key>
  {
    set u, c, b | u in data && c in data[u] && b in data[u][c] :: (u, c, b)
  }

  lemma InKeys(data: map<int, Buffer>, k: Key)
    ensures k in Keys(data) <==> Buffered(data, k.0, k.1, k.2)
  {
  }

  /** Every key still to be consumed was last updated before now. */
  ghost predicate Pending(todo: set<Key>, collected: map<int, AppData>, now: nat)
  {
    forall k :: k in todo && k.0 in collected && Has(collected[k.0].datapoints, k.1, k.2) && Has(collected[k.0].lastUpdated, k.1, k.2) ==>
      collected[k.0].lastUpdated[k.1][k.2] < now
  }

  lemma NoDataOk(now: nat)
    ensures AppOk(NO_DATA, now)
  {
  }

  /** The records stored under a key. */
  function RecordsOf(collected: map<int, AppData>, k: Key): seq<Record>
  {
    if k.0 in collected && Has(collected[k.0].datapoints, k.1, k.2) then collected[k.0].datapoints[k.1][k.2] else []
  }

  /** The value recorded for a list of measurements. */
  function Summary(stats: Statistics, perfs: seq<int>): real
  {
    if perfs != [] then stats.median(perfs) else 0.0
  }

  /** What a consumption adds under a key: one record, with the median of its measurements. */
  function Added(data: map<int, Buffer>, done: set<Key>, stats: Statistics, now: nat, k: Key): seq<Record>
  {
    if k in done && Buffered(data, k.0, k.1, k.2) then [Record(stats.median(data[k.0][k.1][k.2]), now)] else []
  }

  /** The keys done so far have got their record, the others nothing. */
  ghost predicate Consumed(before: map<int, AppData>, data: map<int, Buffer>, done: set<Key>, stats: Statistics, now: nat, after: map<int, AppData>)
  {
    forall k: Key :: RecordsOf(after, k) == RecordsOf(before, k) + Added(data, done, stats, now, k)
  }

  lemma ConsumedNone(before: map<int, AppData>, data: map<int, Buffer>, stats: Statistics, now: nat)
    ensures Consumed(before, data, {}, stats, now, before)
  {
  }

  lemma ConsumedNext(before: map<int, AppData>, data: map<int, Buffer>, done: set<Key>, stats: Statistics, now: nat, cur: map<int, AppData>, k: Key, mrc: seq<real>)
    requires Consumed(before, data, done, stats, now, cur) && k !in done && Buffered(data, k.0, k.1, k.2) && data[k.0][k.1][k.2] != []
    ensures var a := if k.0 in cur then cur[k.0] else NO_DATA;
            var after := cur[k.0 := AddRecord(a, k.1, k.2, Summary(stats, data[k.0][k.1][k.2]), now, mrc)];
            Consumed(before, data, done + {k}, stats, now, after)
  {
    hide AddRecord;
    var a := if k.0 in cur then cur[k.0] else NO_DATA;
    var perf := Summary(stats, data[k.0][k.1][k.2]);
    assert perf == stats.median(data[k.0][k.1][k.2]);
    AddRecordEffect(a, k.1, k.2, perf, now, mrc);
    var after := cur[k.0 := AddRecord(a, k.1, k.2, perf, now, mrc)];
    forall j: Key ensures RecordsOf(after, j) == RecordsOf(before, j) + Added(data, done + {k}, stats, now, j) {
      assert RecordsOf(cur, j) == RecordsOf(before, j) + Added(data, done, stats, now, j);
      if j == k {
        assert RecordsOf(after, j) == RecordsOf(cur, j) + [Record(perf, now)];
      } else {
        assert RecordsOf(after, j) == RecordsOf(cur, j);
      }
    }
  }

  /** Consuming one key keeps every application's data consistent and leaves the other keys'
    times alone. */
  lemma ConsumeKey(todo: set<Key>, collected: map<int, AppData>, now: nat, k: Key, perf: real, mrc: seq<real>)
    requires CollectedOk(collected, now) && Pending(todo, collected, now) && k in todo
    ensures var a := if k.0 in collected then collected[k.0] else NO_DATA;
            var after := collected[k.0 := AddRecord(a, k.1, k.2, perf, now, mrc)];
            CollectedOk(after, now) && Pending(todo - {k}, after, now)
  {
    hide AddRecord;
    NoDataOk(now);
    var u := k.0;
    var a := if u in collected then collected[u] else NO_DATA;
    assert AppOk(a, now);
    assert Has(a.datapoints, k.1, k.2) ==> u in collected && Has(a.lastUpdated, k.1, k.2);
    AddRecordKeepsOk(a, k.1, k.2, perf, now, mrc);
    AddRecordEffect(a, k.1, k.2, perf, now, mrc);
    hide Pairs, Records, HistoryOk;
  }

  /** The curve stored with an application's data is that of one of its consumed keys. */
  ghost predicate HasCurve(collected: map<int, AppData>, mrcs: map<int, Grid<seq<real>>>, k: Key)
  {
    k.0 in collected && Buffered(mrcs, k.0, k.1, k.2) && collected[k.0].lastMrc == mrcs[k.0][k.1][k.2]
  }

  /** Applications of the keys consumed so far have such a curve, all others what they had. */
  ghost predicate CurvesTaken(before: map<int, AppData>, mrcs: map<int, Grid<seq<real>>>, done: set<Key>, after: map<int, AppData>)
  {
    && (forall k :: k in done ==> SomeCurve(mrcs, done, k.0, after))
    && (forall u :: u in before && (forall k :: k in done ==> k.0 != u) ==> u in after && after[u] == before[u])
    && (forall u :: u in after ==> u in before || exists k :: k in done && k.0 == u)
  }

  ghost predicate SomeCurve(mrcs: map<int, Grid<seq<real>>>, done: set<Key>, u: int, after: map<int, AppData>)
  {
    exists k :: k in done && k.0 == u && HasCurve(after, mrcs, k)
  }

  lemma NoCurvesYet(before: map<int, AppData>, mrcs: map<int, Grid<seq<real>>>)
    ensures CurvesTaken(before, mrcs, {}, before)
  {
  }

  lemma CurveNext(before: map<int, AppData>, mrcs: map<int, Grid<seq<real>>>, done: set<Key>, cur: map<int, AppData>, k: Key, a: AppData)
    requires CurvesTaken(before, mrcs, done, cur) && Buffered(mrcs, k.0, k.1, k.2) && a.lastMrc == mrcs[k.0][k.1][k.2]
    ensures CurvesTaken(before, mrcs, done + {k}, cur[k.0 := a])
  {
    var all, after := done + {k}, cur[k.0 := a];
    assert k in all && HasCurve(after, mrcs, k);
    forall j | j in all ensures SomeCurve(mrcs, all, j.0, after) {
      if j.0 != k.0 {
        assert SomeCurve(mrcs, done, j.0, cur);
        var i :| i in done && i.0 == j.0 && HasCurve(cur, mrcs, i);
        assert i in all && HasCurve(after, mrcs, i);
      }
    }
    forall u | u in after ensures u in before || exists j :: j in all && j.0 == u {
      if u != k.0 && u !in before {
        var j :| j in done && j.0 == u;
        assert j in all;
      }
    }
  }

  /** The consumption loop, over the buffered keys in any order; the curve it stores with a
    record is always there. */
  method ConsumeAll(before: map<int, AppData>, data: map<int, Buffer>, mrcs: map<int, Grid<seq<real>>>, stats: Statistics, last: nat)
    returns (collected: map<int, AppData>)
    requires BufferOk(data, mrcs) && CollectedOk(before, last)
    ensures CollectedOk(collected, last + 1) && Consumed(before, data, Keys(data), stats, last + 1, collected)
    ensures CurvesTaken(before, mrcs, Keys(data), collected)
  {
    hide CollectedOk, Pending, AddRecord, Keys, Consumed, Summary, CurvesTaken;
    var now := last + 1;
    collected := before;
    var todo := Keys(data);
    ghost var done: set<Key> := {};
    StartPending(todo, collected, last, now);
    Later(collected, last, now);
    ConsumedNone(collected, data, stats, now);
    NoCurvesYet(collected, mrcs);
    while todo != {}
      invariant CollectedOk(collected, now) && Pending(todo, collected, now)
      invariant done == Keys(data) - todo && todo <= Keys(data) && Consumed(before, data, done, stats, now, collected)
      invariant CurvesTaken(before, mrcs, done, collected)
      decreases |todo|
    {
      var k :| k in todo;
      InKeys(data, k);
      var (u, c, b) := k;
      var perf, mrc := Summary(stats, data[u][c][b]), mrcs[u][c][b];
      ConsumeKey(todo, collected, now, k, perf, mrc);
      ConsumedNext(before, data, done, stats, now, collected, k, mrc);
      var a := if u in collected then collected[u] else NO_DATA;
      AddRecordEffect(a, c, b, perf, now, mrc);
      CurveNext(before, mrcs, done, collected, k, AddRecord(a, c, b, perf, now, mrc));
      collected := collected[u := AddRecord(a, c, b, perf, now, mrc)];
      todo, done := todo - {k}, done + {k};
    }
    assert done == Keys(data);
  }

  lemma NothingBuffered(mrcs: map<int, Grid<seq<real>>>)
    ensures BufferOk(map[], mrcs)
  {
  }

  /** What is stored under a key, empty if there is nothing. */
  function ListAt<T>(m: map<int, Grid<seq<T>>>, u: int, c: int, b: int): seq<T>
  {
    if Buffered(m, u, c, b) then m[u][c][b] else []
  }

  /** The two maps agree at a key. */
  ghost predicate SameAt<T>(m: map<int, Grid<T>>, m': map<int, Grid<T>>, k: Key)
  {
    && (Buffered(m', k.0, k.1, k.2) <==> Buffered(m, k.0, k.1, k.2))
    && (Buffered(m, k.0, k.1, k.2) ==> m'[k.0][k.1][k.2] == m[k.0][k.1][k.2])
  }

  predicate Repeats(perfs: seq<int>, perf: int)
  {
    |perfs| > 0 && perfs[|perfs| - 1] == perf
  }

  /** An entry's value is appended and its curve merged in, unless the value repeats the last
    one; an entry without a curve leaves the stored one.  Nothing changes at any other key. */
  ghost predicate IsBuffered(data: map<int, Buffer>, mrcs: map<int, Grid<seq<real>>>, data': map<int, Buffer>, mrcs': map<int, Grid<seq<real>>>,
                             u: int, c: int, b: int, perf: int, mrc: seq<real>, stats: Statistics)
  {
    && Buffered(data', u, c, b) && Buffered(mrcs', u, c, b)
    && (var was := ListAt(data, u, c, b);
        && data'[u][c][b] == (if Repeats(was, perf) then was else was + [perf])
        && mrcs'[u][c][b] == if Repeats(was, perf) || mrc == [] then ListAt(mrcs, u, c, b) else stats.merge(ListAt(mrcs, u, c, b), mrc))
    && forall k: Key :: k != (u, c, b) ==> SameAt(data, data', k) && SameAt(mrcs, mrcs', k)
  }

  method BufferInto(data: map<int, Buffer>, mrcs: map<int, Grid<seq<real>>>, u: int, c: int, b: int, perf: int, mrc: seq<real>, stats: Statistics)
    returns (data': map<int, Buffer>, mrcs': map<int, Grid<seq<real>>>, skipped: bool)
    requires BufferOk(data, mrcs)
    ensures BufferOk(data', mrcs') && IsBuffered(data, mrcs, data', mrcs', u, c, b, perf, mrc, stats)
    ensures skipped <==> Repeats(ListAt(data, u, c, b), perf)
  {
    hide BufferOk, Changed, WithDefault, Put, ListOk, SameAt;
    var row, slot := WithDefault(RowOf(data, u), c, b, []), WithDefault(RowOf(mrcs, u), c, b, []);
    var was, curve := row[c][b], slot[c][b];
    ListIsOk(data, mrcs, u, c, b);
    PutChanges(RowOf(data, u), c, b, [], was + [perf]);
    PutChanges(RowOf(mrcs, u), c, b, [], stats.merge(curve, mrc));
    skipped := |was| > 0 && was[|was| - 1] == perf;
    if !skipped {
      ListGrows(was, perf);
      row := Put(row, c, b, was + [perf]);
      if mrc != [] {
        curve := stats.merge(curve, mrc);
        slot := Put(slot, c, b, curve);
      }
    }
    ghost var perfs := if skipped then was else was + [perf];
    BufferStep(data, mrcs, u, c, b, perfs, row, curve, slot);
    ChangedHas(RowOf(data, u), c, b, perfs, row);
    ChangedHas(RowOf(mrcs, u), c, b, curve, slot);
    data', mrcs' := data[u := row], mrcs[u := slot];
    StaysElsewhere(data, u, c, b, perfs, row, data');
    StaysElsewhere(mrcs, u, c, b, curve, slot, mrcs');
  }

  /** What an application was last seen to use; the new usage is blended into the one before. */
  datatype Usage = Usage(cache: real, memBw: real)

  function Blended(last: map<int, Usage>, u: int, used: Usage, stats: Statistics): map<int, Usage>
  {
    last[u := if u in last then Usage(stats.blend(last[u].cache, used.cache), stats.blend(last[u].memBw, used.memBw)) else used]
  }

  ghost predicate SameElsewhere<T>(m: map<int, T>, m': map<int, T>, u: int)
  {
    m'.Keys == m.Keys && forall v :: v in m && v != u ==> m'[v] == m[v]
  }

  datatype Operation = BufferOp(user: int, cache: int, memBw: int, perf: int, mrc: seq<real>, used: Usage) | ConsumeOp | ResetOp(user: int)

  class MeasurementStore {
    var iteration: nat
    var buffered: map<int, Buffer>
    var mrcs: map<int, Grid<seq<real>>>
    var collected: map<int, AppData>
    var recent: map<int, seq<Snapshot>>
    var lastUsage: map<int, Usage>

    ghost predicate Valid()
      reads this
    {
      BufferOk(buffered, mrcs) && CollectedOk(collected, iteration) && RecentOk(recent)
    }

    constructor ()
      ensures Valid() && iteration == 0 && buffered == map[] && mrcs == map[] && collected == map[] && recent == map[] && lastUsage == map[]
    {
      iteration, buffered, mrcs, collected, recent, lastUsage := 0, map[], map[], map[], map[], map[];
    }

    /** The storing part of `buffer_collected_data` for one accepted entry. */
    method BufferEntry(u: int, c: int, b: int, perf: int, mrc: seq<real>, used: Usage, stats: Statistics)
      requires Valid()
      modifies this`buffered, this`mrcs, this`lastUsage
      ensures Valid() && IsBuffered(old(buffered), old(mrcs), buffered, mrcs, u, c, b, perf, mrc, stats)
      ensures lastUsage == if Repeats(old(ListAt(buffered, u, c, b)), perf) || mrc == [] then old(lastUsage)
                           else old(lastUsage)[u := if u in old(lastUsage)
                                                    then Usage(stats.blend(old(lastUsage)[u].cache, used.cache),
                                                               stats.blend(old(lastUsage)[u].memBw, used.memBw))
                                                    else used]
    {
      hide BufferOk, CollectedOk, RecentOk, IsBuffered, Repeats;
      var skipped;
      buffered, mrcs, skipped := BufferInto(buffered, mrcs, u, c, b, perf, mrc, stats);
      if !skipped && mrc != [] {
        lastUsage := Blended(lastUsage, u, used, stats);
      }
    }

    /** `_update_recent_measurement`: each buffered application's window slides on by its new
      snapshot, so that it holds the most recent ones. */
    method UpdateRecent(stats: Statistics)
      requires RecentOk(recent)
      modifies this`recent
      ensures RecentOk(recent) && recent.Keys == old(recent).Keys + buffered.Keys
      ensures forall u :: u in buffered ==>
                recent[u] == Slid(if u in old(recent) then old(recent)[u] else [], SnapshotOf(buffered[u], stats))
      ensures forall u :: u in buffered ==> |recent[u]| > 0 && IsSnapshot(recent[u][|recent[u]| - 1], buffered[u], stats)
      ensures forall u :: u in old(recent) && u !in buffered ==> recent[u] == old(recent)[u]
    {
      hide Slide, SnapshotOf, IsSnapshot;
      SlideOk(recent, buffered, stats);
      ghost var data := buffered;
      forall u | u in data ensures IsSnapshot(SnapshotOf(data[u], stats), data[u], stats) {
        SnapshotIs(data[u], stats);
      }
      recent := Slide(recent, buffered, stats);
    }

    /** `comsume_collected_data`: every buffered key becomes one record of this iteration. */
    method Consume(stats: Statistics)
      requires Valid()
      modifies this
      ensures Valid() && iteration == old(iteration) + 1 && buffered == map[] && mrcs == old(mrcs) && lastUsage == old(lastUsage)
      ensures Consumed(old(collected), old(buffered), Keys(old(buffered)), stats, iteration, collected)
      ensures recent.Keys == old(recent).Keys + old(buffered).Keys
      ensures forall u :: u in recent ==>
                if u in old(buffered) then recent[u] == Slid(if u in old(recent) then old(recent)[u] else [], SnapshotOf(old(buffered)[u], stats))
                else recent[u] == old(recent)[u]
      ensures forall u :: u in old(buffered) ==> |recent[u]| > 0 && IsSnapshot(recent[u][|recent[u]| - 1], old(buffered)[u], stats)
      ensures forall k :: k in Keys(old(buffered)) ==> SomeCurve(old(mrcs), Keys(old(buffered)), k.0, collected)
      ensures Stamped(old(collected), old(buffered), iteration, collected)
    {
      hide BufferOk, CollectedOk, RecentOk, Keys, Consumed, Slid, SnapshotOf, IsSnapshot, CurvesTaken, SomeCurve, Stamped;
      iteration := iteration + 1;
      UpdateRecent(stats);
      collected := ConsumeAll(collected, buffered, mrcs, stats, iteration - 1);
      ghost var before := collected;
      StampAll();
      StampKeeps(old(collected), buffered, Keys(buffered), stats, iteration, before, collected);
      CurvesStay(old(collected), buffered, mrcs, iteration, before, collected);
      buffered := map[];
      NothingBuffered(mrcs);
    }

    /** The iteration is noted for every application with buffered data. */
    method StampAll()
      requires CollectedOk(collected, iteration)
      modifies this`collected
      ensures CollectedOk(collected, iteration)
      ensures collected.Keys == old(collected).Keys
      ensures forall u :: u in collected ==>
                collected[u] == if u in buffered then old(collected)[u].(lastUpdateIteration := iteration) else old(collected)[u]
    {
      hide AppOk;
      forall u | u in collected ensures AppOk(collected[u].(lastUpdateIteration := iteration), iteration) {
        StampOk(collected[u], iteration);
      }
      collected := map u | u in collected :: if u in buffered then collected[u].(lastUpdateIteration := iteration) else collected[u];
    }

    /** `reset_metrics_for_app`. */
    method Reset(u: int) returns (reset: bool)
      requires Valid()
      modifies this
      ensures Valid() && iteration == old(iteration)
      ensures reset <==> u in old(collected) || u in old(buffered) || u in old(mrcs) || u in old(lastUsage) || u in old(recent)
      ensures u in collected ==> collected[u] == NO_DATA.(lastUpdateIteration := iteration)
      ensures u in buffered ==> buffered[u] == map[]
      ensures u in mrcs ==> mrcs[u] == map[]
      ensures u in lastUsage ==> lastUsage[u] == Usage(0.0, 0.0)
      ensures u in recent ==> recent[u] == []
      ensures SameElsewhere(old(collected), collected, u) && SameElsewhere(old(buffered), buffered, u) && SameElsewhere(old(mrcs), mrcs, u)
      ensures SameElsewhere(old(lastUsage), lastUsage, u) && SameElsewhere(old(recent), recent, u)
    {
      hide BufferOk, CollectedOk, Emptied, SameElsewhere;
      ResetOk(collected, u, iteration);
      ClearedOk(buffered, mrcs, u);
      EmptiedOk(collected, u, NO_DATA.(lastUpdateIteration := iteration));
      EmptiedOk(buffered, u, map[]);
      EmptiedOk(mrcs, u, map[]);
      EmptiedOk(lastUsage, u, Usage(0.0, 0.0));
      EmptiedOk(recent, u, []);
      reset := u in collected || u in buffered || u in mrcs || u in lastUsage || u in recent;
      collected := Emptied(collected, u, NO_DATA.(lastUpdateIteration := iteration));
      buffered, mrcs := Emptied(buffered, u, map[]), Emptied(mrcs, u, map[]);
      lastUsage := Emptied(lastUsage, u, Usage(0.0, 0.0));
      recent := Emptied(recent, u, []);
    }

    /** Any run of buffering, consuming and resetting from an empty store keeps it consistent. */
    method Replay(ops: seq<Operation>, stats: Statistics)
      requires Valid()
      modifies this
      ensures Valid() && iteration == old(iteration) + Consumptions(ops)
    {
      hide BufferOk, CollectedOk, RecentOk, Consumed, IsBuffered, Keys;
      for i := 0 to |ops|
        invariant Valid() && iteration == old(iteration) + Consumptions(ops[..i])
      {
        assert ops[..i + 1][..i] == ops[..i];
        match ops[i]
        case BufferOp(u, c, b, perf, mrc, used) => BufferEntry(u, c, b, perf, mrc, used, stats);
        case ConsumeOp => Consume(stats);
        case ResetOp(u) => var reset := Reset(u);
      }
      assert ops[..|ops|] == ops;
    }
  }

  function Consumptions(ops: seq<Operation>): nat
  {
    if ops == [] then 0 else Consumptions(ops[..|ops| - 1]) + if ops[|ops| - 1].ConsumeOp? then 1 else 0
  }

  /** A window with a new snapshot at its end; the oldest goes once the window is exceeded. */
  function Slid(window: seq<Snapshot>, s: Snapshot): seq<Snapshot>
  {
    (if |window| > RECENT_WINDOW then window[1..] else window) + [s]
  }

  /** The window after a history of consumptions. */
  function Windowed(history: seq<Snapshot>): seq<Snapshot>
  {
    if history == [] then [] else Slid(Windowed(history[..|history| - 1]), history[|history| - 1])
  }

  /** It holds the most recent snapshots, one more than the window is meant to have. */
  lemma {:induction false} WindowIsMostRecent(history: seq<Snapshot>)
    ensures Windowed(history) == if |history| <= RECENT_WINDOW + 1 then history else history[|history| - RECENT_WINDOW - 1..]
  {
    if history != [] {
      WindowIsMostRecent(history[..|history| - 1]);
    }
  }

  function Slide(recent: map<int, seq<Snapshot>>, data: map<int, Buffer>, stats: Statistics): map<int, seq<Snapshot>>
  {
    recent + map u | u in data :: Slid(if u in recent then recent[u] else [], SnapshotOf(data[u], stats))
  }

  lemma SlideOk(recent: map<int, seq<Snapshot>>, data: map<int, Buffer>, stats: Statistics)
    requires RecentOk(recent)
    ensures RecentOk(Slide(recent, data, stats)) && Slide(recent, data, stats).Keys == recent.Keys + data.Keys
    ensures forall u :: u in data ==> Slide(recent, data, stats)[u] == Slid(if u in recent then recent[u] else [], SnapshotOf(data[u], stats))
    ensures forall u :: u in recent && u !in data ==> Slide(recent, data, stats)[u] == recent[u]
  {
    hide SnapshotOf;
  }

  lemma ListIsOk(data: map<int, Buffer>, mrcs: map<int, Grid<seq<real>>>, u: int, c: int, b: int)
    requires BufferOk(data, mrcs)
    ensures Has(RowOf(data, u), c, b) ==> ListOk(RowOf(data, u)[c][b]) && |RowOf(data, u)[c][b]| > 0
  {
  }

  lemma ChangedHas<T(!new)>(g: Grid<T>, c: int, b: int, x: T, g': Grid<T>)
    requires Changed(g, c, b, x, g')
    ensures Has(g', c, b) && g'[c][b] == x
  {
  }

  function SnapshotOf(data: Buffer, stats: Statistics): Snapshot
  {
    map c, b | c in data && b in data[c] :: (c, b) := Summary(stats, data[c][b])
  }

  /** A snapshot holds the median of every measured key and nothing else. */
  ghost predicate IsSnapshot(s: Snapshot, data: Buffer, stats: Statistics)
  {
    && (forall c, b :: (c, b) in s <==> Has(data, c, b))
    && (forall c, b :: (c, b) in s && Has(data, c, b) && data[c][b] != [] ==> s[(c, b)] == stats.median(data[c][b]))
  }

  lemma SnapshotIs(data: Buffer, stats: Statistics)
    ensures IsSnapshot(SnapshotOf(data, stats), data, stats)
  {
  }

  lemma Later(collected: map<int, AppData>, now: nat, later: nat)
    requires CollectedOk(collected, now) && now <= later
    ensures CollectedOk(collected, later)
  {
  }

  lemma StartPending(todo: set<Key>, collected: map<int, AppData>, before: nat, now: nat)
    requires CollectedOk(collected, before) && before < now
    ensures Pending(todo, collected, now)
  {
    hide Pairs, Records;
    forall k | k in todo && k.0 in collected && Has(collected[k.0].datapoints, k.1, k.2) && Has(collected[k.0].lastUpdated, k.1, k.2)
      ensures collected[k.0].lastUpdated[k.1][k.2] < now
    {
      var u := k.0;
      assert AppOk(collected[u], before);
    }
  }

  /** Storing a non-empty list under a key that gets a curve slot as well. */
  lemma BufferStep(data: map<int, Buffer>, mrcs: map<int, Grid<seq<real>>>, u: int, c: int, b: int, perfs: seq<int>, row: Buffer, mrc: seq<real>, slot: Grid<seq<real>>)
    requires BufferOk(data, mrcs) && ListOk(perfs)
    requires Changed(RowOf(data, u), c, b, perfs, row) && Changed(RowOf(mrcs, u), c, b, mrc, slot)
    ensures BufferOk(data[u := row], mrcs[u := slot])
  {
  }

  lemma StaysElsewhere<T(!new)>(m: map<int, Grid<T>>, u: int, c: int, b: int, x: T, row: Grid<T>, m': map<int, Grid<T>>)
    requires Changed(RowOf(m, u), c, b, x, row) && m' == m[u := row]
    ensures forall k: Key :: k != (u, c, b) ==> SameAt(m, m', k)
  {
    forall k: Key | k != (u, c, b) ensures SameAt(m, m', k) {
      assert k.0 == u ==> (Has(row, k.1, k.2) <==> Has(RowOf(m, u), k.1, k.2));
    }
  }

  lemma ListGrows(perfs: seq<int>, perf: int)
    requires perfs == [] || (ListOk(perfs) && perfs[|perfs| - 1] != perf)
    ensures ListOk(perfs + [perf])
  {
  }

  /** An application's entry, where there is one, is replaced by an empty one. */
  function Emptied<T>(m: map<int, T>, u: int, x: T): map<int, T>
  {
    if u in m then m[u := x] else m
  }

  lemma EmptiedOk<T>(m: map<int, T>, u: int, x: T)
    ensures SameElsewhere(m, Emptied(m, u, x), u) && (u in Emptied(m, u, x) ==> Emptied(m, u, x)[u] == x)
  {
  }

  lemma ClearedOk(data: map<int, Buffer>, mrcs: map<int, Grid<seq<real>>>, u: int)
    requires BufferOk(data, mrcs)
    ensures BufferOk(Emptied(data, u, map[]), Emptied(mrcs, u, map[]))
  {
  }

  lemma ResetOk(collected: map<int, AppData>, u: int, now: nat)
    requires CollectedOk(collected, now)
    ensures CollectedOk(Emptied(collected, u, NO_DATA.(lastUpdateIteration := now)), now)
  {
  }

  /** The last update of applications with buffered data is now; the data of others stays. */
  ghost predicate Stamped(before: map<int, AppData>, data: map<int, Buffer>, now: nat, after: map<int, AppData>)
  {
    && (forall u :: u in after && u in data ==> after[u].lastUpdateIteration == now)
    && (forall u :: u in after && u !in data ==> u in before && after[u] == before[u])
    && (forall u :: u in before ==> u in after)
  }

  lemma CurvesStay(before: map<int, AppData>, data: map<int, Buffer>, mrcs: map<int, Grid<seq<real>>>, now: nat, cur: map<int, AppData>, after: map<int, AppData>)
    requires CurvesTaken(before, mrcs, Keys(data), cur) && after.Keys == cur.Keys
    requires forall u :: u in after ==> after[u] == if u in data then cur[u].(lastUpdateIteration := now) else cur[u]
    ensures forall k :: k in Keys(data) ==> SomeCurve(mrcs, Keys(data), k.0, after)
    ensures Stamped(before, data, now, after)
  {
    hide Keys;
    forall k | k in Keys(data) ensures SomeCurve(mrcs, Keys(data), k.0, after) {
      assert SomeCurve(mrcs, Keys(data), k.0, cur);
      var i :| i in Keys(data) && i.0 == k.0 && HasCurve(cur, mrcs, i);
      assert i.0 in after && HasCurve(after, mrcs, i);
    }
    forall k | k in Keys(data) ensures k.0 in data {
      InKeys(data, k);
    }
    forall u | u in before ensures u in after {
      if exists k :: k in Keys(data) && k.0 == u {
        var k :| k in Keys(data) && k.0 == u;
        assert SomeCurve(mrcs, Keys(data), k.0, cur);
      }
    }
  }

  lemma StampKeeps(before: map<int, AppData>, data: map<int, Buffer>, done: set<Key>, stats: Statistics, now: nat, cur: map<int, AppData>, after: map<int, AppData>)
    requires Consumed(before, data, done, stats, now, cur)
    requires after.Keys == cur.Keys && forall u :: u in after ==> after[u].datapoints == cur[u].datapoints
    ensures Consumed(before, data, done, stats, now, after)
  {
    forall k: Key ensures RecordsOf(after, k) == RecordsOf(cur, k) {
      var u := k.0;
      assert u in after <==> u in cur;
    }
  }

  lemma StampOk(a: AppData, now: nat)
    requires AppOk(a, now)
    ensures AppOk(a.(lastUpdateIteration := now), now)
  {
  }
}
