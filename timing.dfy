/** GPU timestamp bookkeeping: a list of queries still pending on the
    device, the timestamps already resolved, the names given to queries, and
    the start-to-end pairing of duration queries. */
module Timing {
  import opened GL
  import opened Wrappers
  import opened Sequences

  /** TIMING_NOT_AVAILABLE: the sentinel returned for an unresolved timing. */
  const TIMING_NOT_AVAILABLE: uint64 := 0xFFFF_FFFF_FFFF_FFFF

  /** SDurationResult */
  datatype DurationResult = DurationResult(durationNS: uint64, name: string, startQueryID: uint32)

  /** The pending queries the device reports as available. */
  ghost function Finished(pending: seq<uint32>, available: uint32 -> bool): set<uint32> {
    set q | q in pending && available(q)
  }

  /** The start ids of a result list, in list order. */
  function StartIds(results: seq<DurationResult>): (ids: seq<uint32>)
    ensures |ids| == |results|
    ensures forall k :: 0 <= k < |results| ==> ids[k] == results[k].startQueryID
  {
    if results == [] then [] else [results[0].startQueryID] + StartIds(results[1..])
  }

  predicate StrictlyIncreasing(s: seq<uint32>) {
    forall i, j :: 0 <= i < j < |s| ==> s[i] < s[j]
  }

  class GPUtimer {
    /** _queryObjects: queries issued and not yet resolved, in issue order. */
    var queryObjects: seq<uint32>
    var timestamps: map<uint32, uint64>
    var queryNames: map<uint32, string>
    /** start query -> end query */
    var durationQueries: map<uint32, uint32>
    /** Every call made to the device, in order. */
    ghost var calls: seq<DeviceCall>

    /** A query is pending at most once. */
    ghost predicate Valid()
      reads this
    {
      NoDup(queryObjects)
    }

    constructor ()
      ensures Valid()
      ensures queryObjects == [] && timestamps == map[] && queryNames == map[] && durationQueries == map[]
      ensures calls == []
    {
      queryObjects, timestamps, queryNames, durationQueries := [], map[], map[], map[];
      calls := [];
    }

    /** The destructor: delete every query still pending. */
    method Dispose()
      modifies this`calls
      ensures calls == old(calls) + DeleteAll(queryObjects)
    {
      var i := 0;
      while i < |queryObjects|
        invariant 0 <= i <= |queryObjects|
        invariant calls == old(calls) + DeleteAll(queryObjects[..i])
      {
        DeleteAllSnoc(queryObjects[..i], queryObjects[i]);
        assert queryObjects[..i + 1] == queryObjects[..i] + [queryObjects[i]];
        calls := calls + [GlDeleteQueries(queryObjects[i])];
        i := i + 1;
      }
      assert queryObjects[..i] == queryObjects;
    }

    /** Issue a timestamp query, unless that query is already pending. */
    method QueryTimestamp(name: string, queryObject: uint32)
      requires Valid()
      modifies this`queryObjects, this`queryNames, this`calls
      ensures Valid()
      ensures queryObject in old(queryObjects) ==>
        queryObjects == old(queryObjects) && queryNames == old(queryNames) && calls == old(calls)
      ensures queryObject !in old(queryObjects) ==>
        queryObjects == old(queryObjects) + [queryObject] &&
        queryNames == old(queryNames)[queryObject := name] &&
        calls == old(calls) + [GlQueryCounter(queryObject)]
      ensures queryObject !in old(queryObjects) ==> GetQueryName(queryObject) == name
    {
      if IndexOf(queryObjects, queryObject) == |queryObjects| {
        queryObjects := queryObjects + [queryObject];
        queryNames := queryNames[queryObject := name];
        calls := calls + [GlQueryCounter(queryObject)];
      }
    }

    /** The first loop of checkQueryResults: the pending queries the device
        reports available, in pending order. */
    method FinishedQueries(available: uint32 -> bool) returns (finishedList: seq<uint32>)
      ensures finishedList == Filter(queryObjects, available)
    {
      finishedList := [];
      var i := 0;
      while i < |queryObjects|
        invariant 0 <= i <= |queryObjects|
        invariant finishedList == Filter(queryObjects[..i], available)
      {
        FilterConcat(queryObjects[..i], [queryObjects[i]], available);
        assert queryObjects[..i + 1] == queryObjects[..i] + [queryObjects[i]];
        if available(queryObjects[i]) {
          finishedList := finishedList + [queryObjects[i]];
        }
        i := i + 1;
      }
      assert queryObjects[..i] == queryObjects;
    }

    /** Move every pending query the device reports available into the
        timestamp table, with the result the device reports for it.
        `available` and `result` stand for glGetQueryObjectuiv and
        glGetQueryObjectui64v. */
    method CheckQueryResults(available: uint32 -> bool, result: uint32 -> uint64)
      requires Valid()
      modifies this`queryObjects, this`timestamps
      ensures Valid()
      ensures queryObjects == Without(old(queryObjects), Finished(old(queryObjects), available))
      ensures timestamps == old(timestamps) + map q | q in Finished(old(queryObjects), available) :: result(q)
      ensures forall q :: IsTimestampAvailable(q) <==>
        old(IsTimestampAvailable(q)) || q in Finished(old(queryObjects), available)
      ensures forall q :: q in Finished(old(queryObjects), available) ==> GetQueryResult(q) == result(q)
      ensures forall q :: q !in Finished(old(queryObjects), available) ==> GetQueryResult(q) == old(GetQueryResult(q))
    {
      ghost var pending := queryObjects;
      var finishedList := FinishedQueries(available);
      ghost var done: set<uint32> := {};
      var i := 0;
      ResolveStart(pending, finishedList, timestamps, result);
      while i < |finishedList|
        invariant Resolving(pending, finishedList, i, done, queryObjects, timestamps, old(timestamps), result)
        decreases |finishedList| - i
      {
        ResolveLoopStep(pending, finishedList, i, done, queryObjects, timestamps, old(timestamps), result);
        queryObjects := RemoveFirst(queryObjects, finishedList[i]);
        timestamps := timestamps[finishedList[i] := result(finishedList[i])];
        done := done + {finishedList[i]};
        i := i + 1;
      }
      FilterElements(pending, available);
    }

    predicate IsTimestampAvailable(queryID: uint32)
      reads this
    {
      queryID in timestamps
    }

    /** The resolved timestamp of a query, or the sentinel when unresolved. */
    function GetQueryResult(queryID: uint32): (r: uint64)
      reads this
      ensures IsTimestampAvailable(queryID) ==> r == timestamps[queryID]
      ensures !IsTimestampAvailable(queryID) ==> r == TIMING_NOT_AVAILABLE
    {
      if IsTimestampAvailable(queryID) then timestamps[queryID] else TIMING_NOT_AVAILABLE
    }

    /** getQueryName dereferences find(), so the name must exist. */
    function GetQueryName(queryID: uint32): string
      requires queryID in queryNames
      reads this
    {
      queryNames[queryID]
    }

    /** Delete a query and forget its name, timestamp and duration entry.
        Each erase(find(id)) needs the id to be present. */
    method RemoveQueryResult(queryID: uint32)
      requires queryID in queryNames && queryID in timestamps && queryID in durationQueries
      modifies this`queryNames, this`timestamps, this`durationQueries, this`calls
      ensures queryNames == old(queryNames) - {queryID}
      ensures timestamps == old(timestamps) - {queryID}
      ensures durationQueries == old(durationQueries) - {queryID}
      ensures calls == old(calls) + [GlDeleteQueries(queryID)]
      ensures !IsTimestampAvailable(queryID) && GetQueryResult(queryID) == TIMING_NOT_AVAILABLE
    {
      calls := calls + [GlDeleteQueries(queryID)];
      queryNames := queryNames - {queryID};
      timestamps := timestamps - {queryID};
      durationQueries := durationQueries - {queryID};
    }

    method StartDurationQuery(name: string, queryObject: uint32)
      requires Valid()
      modifies this`queryObjects, this`queryNames, this`calls
      ensures Valid()
      ensures queryObject in old(queryObjects) ==>
        queryObjects == old(queryObjects) && queryNames == old(queryNames) && calls == old(calls)
      ensures queryObject !in old(queryObjects) ==>
        queryObjects == old(queryObjects) + [queryObject] &&
        queryNames == old(queryNames)[queryObject := name] &&
        calls == old(calls) + [GlQueryCounter(queryObject)]
    {
      QueryTimestamp(name, queryObject);
    }

    /** Pair the start query with an end query, generating one (glGenQueries
        yields `generated`) only the first time, and issue the end timestamp. */
    method EndDurationQuery(startQueryID: uint32, generated: uint32)
      requires Valid()
      modifies this`durationQueries, this`queryObjects, this`queryNames, this`calls
      ensures Valid()
      ensures var endQuery := EndQueryFor(old(durationQueries), startQueryID, generated);
        durationQueries == old(durationQueries)[startQueryID := endQuery] &&
        (endQuery in old(queryObjects) ==>
           queryObjects == old(queryObjects) && queryNames == old(queryNames)) &&
        (endQuery !in old(queryObjects) ==>
           queryObjects == old(queryObjects) + [endQuery] && queryNames == old(queryNames)[endQuery := ""]) &&
        calls == old(calls) +
          (if startQueryID in old(durationQueries) then [] else [GlGenQueries]) +
          (if endQuery in old(queryObjects) then [] else [GlQueryCounter(endQuery)])
    {
      var endQuery: uint32 := 0;
      if startQueryID !in durationQueries {
        calls := calls + [GlGenQueries];
        endQuery := generated;
      } else {
        endQuery := durationQueries[startQueryID];
      }
      durationQueries := durationQueries[startQueryID := endQuery];
      QueryTimestamp("", endQuery);
    }

    /** The duration between the start and end timestamps of a duration
        query, or the sentinel when there is no end query or either timestamp
        is unresolved.  The subtraction is GLuint64's, and the difference
        goes through a double before it is returned. */
    function GetDurationMS(startQueryID: uint32): (r: uint64)
      reads this
      ensures startQueryID !in durationQueries ==> r == TIMING_NOT_AVAILABLE
      ensures (startQueryID in durationQueries &&
        !(IsTimestampAvailable(startQueryID) && IsTimestampAvailable(durationQueries[startQueryID]))) ==>
        r == TIMING_NOT_AVAILABLE
      ensures (startQueryID in durationQueries && IsTimestampAvailable(startQueryID) &&
        IsTimestampAvailable(durationQueries[startQueryID]) &&
        timestamps[startQueryID] <= timestamps[durationQueries[startQueryID]] &&
        timestamps[durationQueries[startQueryID]] as int - timestamps[startQueryID] as int < DOUBLE_SIGNIFICAND_BOUND) ==>
        r as int == timestamps[durationQueries[startQueryID]] as int - timestamps[startQueryID] as int
      ensures (startQueryID in durationQueries && IsTimestampAvailable(startQueryID) &&
        IsTimestampAvailable(durationQueries[startQueryID])) ==>
        var d := SubWrap64(timestamps[durationQueries[startQueryID]], timestamps[startQueryID]);
        2 * (r as int - d as int) <= Pow2(Excess(d as nat)) && 2 * (d as int - r as int) <= Pow2(Excess(d as nat))
    {
      if startQueryID !in durationQueries then TIMING_NOT_AVAILABLE
      else
        var endQueryID := durationQueries[startQueryID];
        if IsTimestampAvailable(startQueryID) && IsTimestampAvailable(endQueryID)
        then DoubleRoundTrip(SubWrap64(GetQueryResult(endQueryID), GetQueryResult(startQueryID)))
        else TIMING_NOT_AVAILABLE
    }

    /** The duration queries whose duration is available. */
    ghost predicate Reportable(startQueryID: uint32)
      reads this
    {
      startQueryID in durationQueries && GetDurationMS(startQueryID) != TIMING_NOT_AVAILABLE
    }

    /** A result entry of a reportable duration query: its duration and the
        name of its start query. */
    ghost predicate IsEntry(r: DurationResult)
      reads this
    {
      Reportable(r.startQueryID) && r.startQueryID in queryNames &&
      r.durationNS == GetDurationMS(r.startQueryID) && r.name == queryNames[r.startQueryID]
    }

    /** One result per reportable duration query, in ascending start-id
        order (the iteration order of std::map). */
    method GetDurationResultsMS() returns (results: seq<DurationResult>)
      requires forall s :: s in durationQueries && GetDurationMS(s) != TIMING_NOT_AVAILABLE ==> s in queryNames
      ensures StrictlyIncreasing(StartIds(results))
      ensures forall k :: 0 <= k < |results| ==> IsEntry(results[k])
      ensures forall s :: Reportable(s) ==> s in StartIds(results)
    {
      results := [];
      var remaining := durationQueries.Keys;
      CollectStart();
      while remaining != {}
        invariant Collected(results, remaining)
        decreases |remaining|
      {
        ghost var least := MinOf(remaining);
        var queryID :| queryID in remaining && forall x :: x in remaining ==> queryID <= x;
        CollectStep(results, remaining, queryID);
        var duration := GetDurationMS(queryID);
        if duration != TIMING_NOT_AVAILABLE {
          results := results + [DurationResult(duration, GetQueryName(queryID), queryID)];
        }
        remaining := remaining - {queryID};
      }
    }

    /** The loop state of getDurationResultsMS: the keys not yet visited are
        above every collected id, and everything reportable already visited
        is collected. */
    ghost predicate Collected(results: seq<DurationResult>, remaining: set<uint32>)
      reads this
    {
      remaining <= durationQueries.Keys &&
      StrictlyIncreasing(StartIds(results)) &&
      (forall k :: 0 <= k < |results| ==> IsEntry(results[k])) &&
      (forall k, r :: 0 <= k < |results| && r in remaining ==> results[k].startQueryID < r) &&
      (forall s :: s in durationQueries && s !in remaining && Reportable(s) ==> s in StartIds(results)) &&
      (forall s :: s in durationQueries && GetDurationMS(s) != TIMING_NOT_AVAILABLE ==> s in queryNames)
    }

    lemma CollectStep(results: seq<DurationResult>, remaining: set<uint32>, queryID: uint32)
      requires Collected(results, remaining)
      requires queryID in remaining && forall x :: x in remaining ==> queryID <= x
      ensures queryID in durationQueries
      ensures GetDurationMS(queryID) != TIMING_NOT_AVAILABLE ==> queryID in queryNames
      ensures Collected(if GetDurationMS(queryID) != TIMING_NOT_AVAILABLE
                        then results + [DurationResult(GetDurationMS(queryID), queryNames[queryID], queryID)]
                        else results,
                        remaining - {queryID})
    {
      var duration := GetDurationMS(queryID);
      if duration != TIMING_NOT_AVAILABLE {
        var entry := DurationResult(duration, queryNames[queryID], queryID);
        assert IsEntry(entry);
        CollectAppend(results, remaining, entry);
      }
    }

    /** Appending the entry of the least remaining id keeps the loop state. */
    lemma CollectAppend(results: seq<DurationResult>, remaining: set<uint32>, entry: DurationResult)
      requires Collected(results, remaining) && IsEntry(entry)
      requires entry.startQueryID in remaining && forall x :: x in remaining ==> entry.startQueryID <= x
      ensures Collected(results + [entry], remaining - {entry.startQueryID})
    {
      var r, id := results + [entry], entry.startQueryID;
      StartIdsSnoc(results, entry);
      AppendIncreasing(StartIds(results), id);
      forall k | 0 <= k < |r| ensures IsEntry(r[k]) {
        if k < |results| { assert r[k] == results[k]; }
      }
      AppendAbove(results, entry, remaining);
    }

    lemma CollectStart()
      requires forall s :: s in durationQueries && GetDurationMS(s) != TIMING_NOT_AVAILABLE ==> s in queryNames
      ensures Collected([], durationQueries.Keys)
    {
    }

    /** removeDurationQuery as intended: delete both queries of the pair and
        forget their names, timestamps and the pairing. */
    method RemoveDurationQuery(startQueryID: uint32)
      modifies this`queryNames, this`timestamps, this`durationQueries, this`calls
      ensures startQueryID !in old(durationQueries) ==>
        queryNames == old(queryNames) && timestamps == old(timestamps) &&
        durationQueries == old(durationQueries) && calls == old(calls)
      ensures startQueryID in old(durationQueries) ==>
        var endQueryID := old(durationQueries)[startQueryID];
        queryNames == old(queryNames) - {startQueryID, endQueryID} &&
        timestamps == old(timestamps) - {startQueryID, endQueryID} &&
        durationQueries == old(durationQueries) - {startQueryID, endQueryID} &&
        calls == old(calls) + [GlDeleteQueries(startQueryID), GlDeleteQueries(endQueryID)]
    {
      if startQueryID !in durationQueries {
        return;
      }
      var endQueryID := durationQueries[startQueryID];
      calls := calls + [GlDeleteQueries(startQueryID), GlDeleteQueries(endQueryID)];
      queryNames := queryNames - {startQueryID} - {endQueryID};
      timestamps := timestamps - {startQueryID} - {endQueryID};
      durationQueries := durationQueries - {startQueryID} - {endQueryID};
    }
  }

  /** The end query endDurationQuery pairs with a start query. */
  function EndQueryFor(durationQueries: map<uint32, uint32>, startQueryID: uint32, generated: uint32): uint32
  {
    if startQueryID in durationQueries then durationQueries[startQueryID] else generated
  }

  /** A second endDurationQuery for the same start reuses the first one's
      end query whatever id the device would generate. */
  lemma {:induction false} EndQueryReused(dq: map<uint32, uint32>, s: uint32, g1: uint32, g2: uint32)
    ensures EndQueryFor(dq[s := EndQueryFor(dq, s, g1)], s, g2) == EndQueryFor(dq, s, g1)
  {
  }

  /** One glDeleteQueries per query, in order. */
  function DeleteAll(queries: seq<uint32>): (r: seq<DeviceCall>)
    ensures |r| == |queries|
    ensures forall k :: 0 <= k < |queries| ==> r[k] == GlDeleteQueries(queries[k])
  {
    if queries == [] then [] else [GlDeleteQueries(queries[0])] + DeleteAll(queries[1..])
  }

  lemma {:induction false} DeleteAllSnoc(queries: seq<uint32>, q: uint32)
    ensures DeleteAll(queries + [q]) == DeleteAll(queries) + [GlDeleteQueries(q)]
  {
    if queries != [] {
      assert (queries + [q])[1..] == queries[1..] + [q];
      DeleteAllSnoc(queries[1..], q);
    }
  }

  lemma {:induction false} StartIdsSnoc(results: seq<DurationResult>, r: DurationResult)
    ensures StartIds(results + [r]) == StartIds(results) + [r.startQueryID]
  {
  }

  /** An id above every id of a strictly increasing list extends it. */
  lemma AppendIncreasing(ids: seq<uint32>, id: uint32)
    requires StrictlyIncreasing(ids)
    requires forall k :: 0 <= k < |ids| ==> ids[k] < id
    ensures StrictlyIncreasing(ids + [id])
  {
    var s := ids + [id];
    forall i, j | 0 <= i < j < |s| ensures s[i] < s[j] {
      assert s[i] == ids[i];
    }
  }

  /** Appending the least of the remaining ids keeps every collected id
      below every id still remaining. */
  lemma AppendAbove(results: seq<DurationResult>, entry: DurationResult, remaining: set<uint32>)
    requires forall k, x :: 0 <= k < |results| && x in remaining ==> results[k].startQueryID < x
    requires entry.startQueryID in remaining && forall x :: x in remaining ==> entry.startQueryID <= x
    ensures forall k, x :: 0 <= k < |results + [entry]| && x in remaining - {entry.startQueryID} ==>
      (results + [entry])[k].startQueryID < x
  {
    var r := results + [entry];
    forall k, x | 0 <= k < |r| && x in remaining - {entry.startQueryID} ensures r[k].startQueryID < x {
      if k < |results| { assert r[k] == results[k]; }
    }
  }

  /** The least element of a non-empty set of ids. */
  ghost function MinOf(s: set<uint32>): (m: uint32)
    requires s != {}
    ensures m in s && forall x :: x in s ==> m <= x
    decreases |s|
  {
    var y :| y in s;
    var rest := s - {y};
    assert forall x :: x in s ==> x == y || x in rest;
    if rest == {} then y
    else
      var m := MinOf(rest);
      if y < m then y else m
  }

  /** The state after the first i finished queries of checkQueryResults'
      second loop have been moved: they are gone from the pending list, which
      stays duplicate-free, and their results are in the timestamp table. */
  ghost predicate Resolving(pending: seq<uint32>, finished: seq<uint32>, i: int, done: set<uint32>,
                            queryObjects: seq<uint32>, timestamps: map<uint32, uint64>,
                            t0: map<uint32, uint64>, result: uint32 -> uint64)
  {
    0 <= i <= |finished| && done == (set k | 0 <= k < i :: finished[k]) &&
    NoDup(pending) && NoDup(queryObjects) && queryObjects == Without(pending, done) &&
    timestamps == t0 + map q | q in done :: result(q)
  }

  lemma ResolveStart(pending: seq<uint32>, finished: seq<uint32>, t0: map<uint32, uint64>, result: uint32 -> uint64)
    requires NoDup(pending)
    ensures Resolving(pending, finished, 0, {}, pending, t0, t0, result)
  {
    WithoutNone(pending);
    assert t0 == t0 + map q | q in {} :: result(q);
  }

  lemma ResolveLoopStep(pending: seq<uint32>, finished: seq<uint32>, i: int, done: set<uint32>,
                        queryObjects: seq<uint32>, timestamps: map<uint32, uint64>,
                        t0: map<uint32, uint64>, result: uint32 -> uint64)
    requires Resolving(pending, finished, i, done, queryObjects, timestamps, t0, result)
    requires i < |finished|
    ensures Resolving(pending, finished, i + 1, done + {finished[i]}, RemoveFirst(queryObjects, finished[i]),
                      timestamps[finished[i] := result(finished[i])], t0, result)
  {
    RemoveFirstWithout(pending, done, finished[i]);
    RemoveFirstNoDup(queryObjects, finished[i]);
    ResolveStep(t0, done, finished[i], result);
    assert done + {finished[i]} == set k | 0 <= k < i + 1 :: finished[k];
  }

  /** Recording one more resolved query extends the resolved table by it. */
  lemma ResolveStep(t0: map<uint32, uint64>, done: set<uint32>, q: uint32, result: uint32 -> uint64)
    ensures (t0 + map x | x in done :: result(x))[q := result(q)] == t0 + map x | x in done + {q} :: result(x)
  {
  }

  /** The elements of the finished list are the finished queries. */
  lemma FilterElements(pending: seq<uint32>, available: uint32 -> bool)
    ensures (set k | 0 <= k < |Filter(pending, available)| :: Filter(pending, available)[k]) == Finished(pending, available)
  {
    var f := Filter(pending, available);
    forall q | q in Finished(pending, available)
      ensures q in (set k | 0 <= k < |f| :: f[k])
    {
      var j :| 0 <= j < |pending| && pending[j] == q;
      assert q in f;
      var k :| 0 <= k < |f| && f[k] == q;
    }
  }

  /** checkQueryResults keeps the still-pending queries in their issue
      order: removing the finished ones is filtering by "not available". */
  lemma CheckKeepsOrder(pending: seq<uint32>, available: uint32 -> bool, pendingStill: uint32 -> bool)
    requires forall q :: pendingStill(q) == !available(q)
    ensures Without(pending, Finished(pending, available)) == Filter(pending, pendingStill)
  {
    WithoutIsFilter(pending, Finished(pending, available), pendingStill);
  }

  /** removeQueryResult as written, on the three tables: each
      erase(find(id)) is undefined (None) when the id is absent. */
  function RemoveQueryResultAsWritten(names: map<uint32, string>, stamps: map<uint32, uint64>,
                                      dq: map<uint32, uint32>, id: uint32)
    : Option<(map<uint32, string>, map<uint32, uint64>, map<uint32, uint32>)>
  {
    if id in names && id in stamps && id in dq then Some((names - {id}, stamps - {id}, dq - {id}))
    else None
  }

  /** removeDurationQuery as written: it removes the start query (which
      erases the entry `iter` points to), then the end query (whose id is not
      a key of the pairing table unless it starts a pair itself), then erases
      `iter` again.  None marks a step with undefined behaviour. */
  function RemoveDurationQueryAsWritten(names: map<uint32, string>, stamps: map<uint32, uint64>,
                                        dq: map<uint32, uint32>, start: uint32)
    : (r: Option<(map<uint32, string>, map<uint32, uint64>, map<uint32, uint32>)>)
    ensures start !in dq ==> r == Some((names, stamps, dq))
  {
    if start !in dq then Some((names, stamps, dq))
    else
      var endQueryID := dq[start];
      match RemoveQueryResultAsWritten(names, stamps, dq, start)
      case None => None
      case Some(afterStart) =>
        match RemoveQueryResultAsWritten(afterStart.0, afterStart.1, afterStart.2, endQueryID)
        case None => None
        case Some(_) => None  // `iter` was invalidated by the first erase
  }

  /** Whenever the pair exists, the as-written removal reaches undefined
      behaviour; for example a pair 1 -> 2 with both timestamps resolved. */
  lemma RemoveDurationQueryAlwaysUndefined(names: map<uint32, string>, stamps: map<uint32, uint64>,
                                           dq: map<uint32, uint32>, start: uint32)
    requires start in dq
    ensures RemoveDurationQueryAsWritten(names, stamps, dq, start) == None
  {
  }

  lemma RemoveDurationQueryExample()
    ensures RemoveDurationQueryAsWritten(map[1 := "a", 2 := ""], map[1 := 10, 2 := 25], map[1 := 2], 1) == None
  {
    RemoveDurationQueryAlwaysUndefined(map[1 := "a", 2 := ""], map[1 := 10, 2 := 25], map[1 := 2], 1);
  }

  /** A query issued under a name is known by that name afterwards. */
  method NameOfIssuedQuery(timer: GPUtimer, name: string, q: uint32) returns (n: string)
    requires timer.Valid() && q !in timer.queryObjects
    modifies timer`queryObjects, timer`queryNames, timer`calls
    ensures n == name
  {
    timer.QueryTimestamp(name, q);
    n := timer.GetQueryName(q);
  }

  /** An issued query becomes available at the next check exactly when the
      device reports it finished, and then reads back the device's result. */
  method IssueThenResolve(timer: GPUtimer, name: string, q: uint32,
                          available: uint32 -> bool, result: uint32 -> uint64)
    requires timer.Valid() && q !in timer.queryObjects
    modifies timer`queryObjects, timer`queryNames, timer`calls, timer`timestamps
    ensures timer.IsTimestampAvailable(q) <==> old(timer.IsTimestampAvailable(q)) || available(q)
    ensures available(q) ==> timer.GetQueryResult(q) == result(q)
    ensures !available(q) ==> timer.GetQueryResult(q) == old(timer.GetQueryResult(q))
  {
    timer.QueryTimestamp(name, q);
    assert q in timer.queryObjects;
    timer.CheckQueryResults(available, result);
  }
}
