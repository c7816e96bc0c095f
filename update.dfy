/** The daily-data updater: the record of when each kind of data was last
    refreshed, the rule that decides whether today's data is still current,
    and the per-code merge that replaces the stored bars from the last
    stored time on by the freshly fetched ones. */
module Update {
  import opened Common

  /** The key under which the daily bars' refresh time is kept. */
  const DayKline := "day-kline"

  /** Seconds in the 24 hours the rule steps back to reach yesterday's node. */
  const Day := 86400

  /** `time.Time{}.Unix()`: the time of a bar that was never read. */
  const ZeroTime := -62135596800

  /** The update rule: after today's node the data is current when it was
      refreshed at or after the node; up to and at the node it is current
      when refreshed at or after yesterday's node. */
  function Fresh(now: int, node: int, updateTime: int): (b: bool)
    ensures now > node ==> (b <==> updateTime >= node)
    ensures now <= node ==> (b <==> updateTime >= node - Day)
  {
    if now - node > 0 then !(updateTime - node < 0)
    else !(updateTime - (node - Day) < 0)
  }

  /** A later refresh is current whenever an earlier one is. */
  lemma FreshMonotone(now: int, node: int, t1: int, t2: int)
    requires t1 <= t2 && Fresh(now, node, t1)
    ensures Fresh(now, node, t2)
  {
  }

  /** A refresh made today, once the node has passed or not, keeps the data
      current for the rest of the day. */
  lemma RefreshIsCurrentAllDay(today: int, node: int, refreshed: int, now: int)
    requires today <= node <= today + Day
    requires today <= refreshed <= now < today + Day
    requires refreshed > node || now <= node
    ensures Fresh(now, node, refreshed)
  {
  }

  /** A refresh from before yesterday's node is never current. */
  lemma StaleBeforeYesterday(now: int, node: int, updateTime: int)
    requires updateTime < node - Day
    ensures !Fresh(now, node, updateTime)
  {
  }

  /** `Updated`: the refresh time of each key, and the hour and minute of the
      daily node. */
  class Updated {
    var records: map<string, int>
    var hour: int
    var minute: int

    /** `NewUpdated`: no records yet, node at 15:00. */
    constructor ()
      ensures records == map[] && hour == 15 && minute == 0
    {
      records := map[];
      hour := 15;
      minute := 0;
    }

    /** Today's node for a day that starts at `today` (local midnight). */
    function Node(today: int): int
      reads this
    {
      today + hour * 3600 + minute * 60
    }

    /** `Update`: sets the refresh time of an existing record to now; a key
        without a record is left without one. */
    method Touch(key: string, now: int)
      modifies this
      ensures key in old(records) ==> records == old(records)[key := now]
      ensures key !in old(records) ==> records == old(records)
      ensures hour == old(hour) && minute == old(minute)
    {
      if key in records {
        records := records[key := now];
      }
    }

    /** `Updated`: whether the data under key is current. A failed lookup
        answers true with the error; a missing record is created with time 0
        and answers false (true with the error when the insert fails);
        otherwise the update rule decides. */
    method IsUpdated(key: string, now: int, today: int, lookupErr: Option<string>, insertErr: Option<string>)
      returns (updated: bool, err: Option<string>)
      modifies this
      ensures hour == old(hour) && minute == old(minute)
      ensures lookupErr.Some? ==> updated && err == lookupErr && records == old(records)
      ensures lookupErr.None? && key !in old(records) && insertErr.Some? ==>
        updated && err == insertErr && records == old(records)
      ensures lookupErr.None? && key !in old(records) && insertErr.None? ==>
        !updated && err.None? && records == old(records)[key := 0]
      ensures lookupErr.None? && key in old(records) ==>
        err.None? && records == old(records) && updated == Fresh(now, Node(today), records[key])
    {
      if lookupErr.Some? {
        return true, lookupErr;
      }
      if key !in records {
        if insertErr.Some? {
          return true, insertErr;
        }
        records := records[key := 0];
        return false, None;
      }
      var node := today + hour * 3600 + minute * 60;
      var updateTime := records[key];
      if now - node > 0 {
        if updateTime - node < 0 {
          return false, None;
        }
      } else {
        if updateTime - (node - Day) < 0 {
          return false, None;
        }
      }
      return true, None;
    }
  }

  // ---------------------------------------------------------------------
  // The per-code merge.

  /** The stored bars before time t, in stored order. */
  function Before(rows: seq<Kline>, t: int): (r: seq<Kline>)
    ensures |r| <= |rows|
  {
    if |rows| == 0 then []
    else Before(rows[..|rows| - 1], t) + (if rows[|rows| - 1].time < t then [rows[|rows| - 1]] else [])
  }

  /** The bars at or after time t, in order. */
  function From(rows: seq<Kline>, t: int): (r: seq<Kline>)
    ensures |r| <= |rows|
  {
    if |rows| == 0 then []
    else From(rows[..|rows| - 1], t) + (if rows[|rows| - 1].time >= t then [rows[|rows| - 1]] else [])
  }

  /** What a merge leaves stored: the old bars before t, then the fetched
      bars from t on. */
  function Merge(stored: seq<Kline>, fetched: seq<Kline>, t: int): seq<Kline> {
    Before(stored, t) + From(fetched, t)
  }

  /** `last.Time`: the time of the first stored row, which is what reading
      one row without an order gives, or the zero time when nothing is
      stored. */
  function LastTime(stored: seq<Kline>): int {
    if |stored| > 0 then stored[0].time else ZeroTime
  }

  /** Before keeps exactly the rows earlier than t, in their order. */
  lemma {:induction false} BeforeMembers(rows: seq<Kline>, t: int)
    ensures forall k :: k in Before(rows, t) <==> k in rows && k.time < t
  {
    if |rows| > 0 {
      var init := rows[..|rows| - 1];
      BeforeMembers(init, t);
      assert rows == init + [rows[|rows| - 1]];
    }
  }

  /** From keeps exactly the rows at or after t, in their order. */
  lemma {:induction false} FromMembers(rows: seq<Kline>, t: int)
    ensures forall k :: k in From(rows, t) <==> k in rows && k.time >= t
  {
    if |rows| > 0 {
      var init := rows[..|rows| - 1];
      FromMembers(init, t);
      assert rows == init + [rows[|rows| - 1]];
    }
  }

  predicate Ascending(rows: seq<Kline>) {
    forall i, j :: 0 <= i < j < |rows| ==> rows[i].time < rows[j].time
  }

  lemma {:induction false} BeforeAscending(rows: seq<Kline>, t: int)
    requires Ascending(rows)
    ensures Ascending(Before(rows, t))
  {
    if |rows| > 0 {
      var init := rows[..|rows| - 1];
      BeforeAscending(init, t);
      BeforeMembers(init, t);
      var last := rows[|rows| - 1];
      forall k | k in Before(init, t)
        ensures k.time < last.time
      {
        var i :| 0 <= i < |init| && init[i] == k;
      }
    }
  }

  lemma {:induction false} FromAscending(rows: seq<Kline>, t: int)
    requires Ascending(rows)
    ensures Ascending(From(rows, t))
  {
    if |rows| > 0 {
      var init := rows[..|rows| - 1];
      FromAscending(init, t);
      FromMembers(init, t);
      var last := rows[|rows| - 1];
      forall k | k in From(init, t)
        ensures k.time < last.time
      {
        var i :| 0 <= i < |init| && init[i] == k;
      }
    }
  }

  /** A merge of two ascending series is ascending, keeps every stored bar
      before t and no other stored bar, and keeps exactly the fetched bars
      from t on. */
  lemma MergeProperties(stored: seq<Kline>, fetched: seq<Kline>, t: int)
    requires Ascending(stored) && Ascending(fetched)
    ensures Ascending(Merge(stored, fetched, t))
    ensures forall k :: k in Merge(stored, fetched, t) <==>
      (k in stored && k.time < t) || (k in fetched && k.time >= t)
  {
    BeforeAscending(stored, t);
    FromAscending(fetched, t);
    BeforeMembers(stored, t);
    FromMembers(fetched, t);
    var b: seq<Kline>, f: seq<Kline> := Before(stored, t), From(fetched, t);
    var bf := b + f;
    forall i, j | 0 <= i < j < |bf|
      ensures bf[i].time < bf[j].time
    {
      if i < |b| && j >= |b| {
        assert bf[i] == b[i] && bf[j] == f[j - |b|];
        assert b[i] in b && f[j - |b|] in f;
      }
    }
  }

  function StoredIn(days: map<string, seq<Kline>>, code: string): seq<Kline> {
    if code in days then days[code] else []
  }

  /** The store after one code's update: unchanged when the fetch fails. */
  function MergeCode(days: map<string, seq<Kline>>, code: string,
                     fetch: (string, int) -> Result<seq<Kline>>): map<string, seq<Kline>> {
    var t := LastTime(StoredIn(days, code));
    match fetch(code, t)
    case Err(_) => days
    case Ok(list) => days[code := Merge(StoredIn(days, code), list, t)]
  }

  /** The store after the codes' updates, one after the other. */
  function AfterUpdates(days: map<string, seq<Kline>>, codes: seq<string>,
                        fetch: (string, int) -> Result<seq<Kline>>): map<string, seq<Kline>> {
    if |codes| == 0 then days
    else MergeCode(AfterUpdates(days, codes[..|codes| - 1], fetch), codes[|codes| - 1], fetch)
  }

  /** A code that is not updated keeps its bars, and no code loses its
      entry. */
  lemma {:induction false} OtherCodesUntouched(days: map<string, seq<Kline>>, codes: seq<string>,
                                               fetch: (string, int) -> Result<seq<Kline>>, c: string)
    ensures days.Keys <= AfterUpdates(days, codes, fetch).Keys
    ensures c !in codes ==> StoredIn(AfterUpdates(days, codes, fetch), c) == StoredIn(days, c)
    ensures c !in codes ==> (c in AfterUpdates(days, codes, fetch) <==> c in days)
  {
    if |codes| > 0 {
      var init := codes[..|codes| - 1];
      assert codes == init + [codes[|codes| - 1]];
      OtherCodesUntouched(days, init, fetch, c);
    }
  }

  /** The stored bars of each code and the refresh record. */
  class Store {
    var days: map<string, seq<Kline>>
    const log: Updated

    constructor (log: Updated)
      ensures days == map[] && this.log == log
    {
      days := map[];
      this.log := log;
    }

    /** `updateDayKline`, given what the server answers for a request that
        stops at the last stored time: the stored bars from that time on are
        deleted, then the fetched bars from that time on are inserted in
        order. A failed fetch changes nothing. */
    method UpdateDayKline(code: string, fetch: (string, int) -> Result<seq<Kline>>) returns (err: Option<string>)
      modifies this
      ensures days == MergeCode(old(days), code, fetch)
      ensures err.Some? <==> fetch(code, LastTime(StoredIn(old(days), code))).Err?
    {
      var stored := StoredIn(days, code);
      var t := LastTime(stored);
      var resp := fetch(code, t);
      if resp.Err? {
        return Some(resp.msg);
      }
      var kept: seq<Kline> := [];
      for i := 0 to |stored|
        invariant kept == Before(stored[..i], t)
      {
        assert stored[..i + 1][..i] == stored[..i];
        if stored[i].time < t {
          kept := kept + [stored[i]];
        }
      }
      assert stored[..|stored|] == stored;
      var list := resp.value;
      for i := 0 to |list|
        invariant kept == Before(stored, t) + From(list[..i], t)
      {
        assert list[..i + 1][..i] == list[..i];
        if list[i].time < t {
          continue;
        }
        kept := kept + [list[i]];
      }
      assert list[..|list|] == list;
      days := days[code := kept];
      err := None;
    }

    /** `updateDayKlineAll`, the codes run one after the other: nothing
        happens when the check fails or says the data is current; otherwise
        every code is updated, a code's failure only logged, and the record
        is refreshed to now. */
    method UpdateDayKlineAll(codes: seq<string>, fetch: (string, int) -> Result<seq<Kline>>,
                             now: int, today: int, lookupErr: Option<string>, insertErr: Option<string>)
      returns (err: Option<string>)
      modifies this, log
      ensures lookupErr.Some? ==> err == lookupErr && days == old(days) && log.records == old(log.records)
      ensures lookupErr.None? && DayKline in old(log.records) && Fresh(now, old(log.Node(today)), old(log.records)[DayKline]) ==>
        err.None? && days == old(days) && log.records == old(log.records)
      ensures lookupErr.None? && DayKline in old(log.records) && !Fresh(now, old(log.Node(today)), old(log.records)[DayKline]) ==>
        err.None? && days == AfterUpdates(old(days), codes, fetch) && log.records == old(log.records)[DayKline := now]
      ensures lookupErr.None? && DayKline !in old(log.records) && insertErr.Some? ==>
        err == insertErr && days == old(days) && log.records == old(log.records)
      ensures lookupErr.None? && DayKline !in old(log.records) && insertErr.None? ==>
        err.None? && days == AfterUpdates(old(days), codes, fetch) && log.records == old(log.records)[DayKline := now]
    ensures log.hour == old(log.hour) && log.minute == old(log.minute)
    {
      var updated, e := log.IsUpdated(DayKline, now, today, lookupErr, insertErr);
      if e.Some? {
        return e;
      }
      if updated {
        return None;
      }
      ghost var before := days;
      for i := 0 to |codes|
        invariant days == AfterUpdates(before, codes[..i], fetch)
        invariant log.records == old(log.records)[DayKline := if DayKline in old(log.records) then old(log.records)[DayKline] else 0]
        invariant log.hour == old(log.hour) && log.minute == old(log.minute)
      {
        assert codes[..i + 1][..i] == codes[..i];
        var res := UpdateDayKline(codes[i], fetch);
      }
      assert codes[..|codes|] == codes;
      log.Touch(DayKline, now);
      return None;
    }
  }
}
