/*
  The offline store: two local tables of rows (readings and alerts), each
  row tagged pending or synced, a per-location last-sync marker kept in the
  cache with a time-to-live, and the canonical store that a sync pass
  writes the pending rows into. The tables are sequences in table order;
  a row's position stands for its id.
*/
module Offline {
  import opened Wrappers
  import opened Config
  import opened Values
  import opened Sequences

  datatype SyncStatus = Pending | Synced

  /** The columns of a stored row, apart from its id and sync status. Times
      are stored as ISO text in the tables and compared as text; here they
      are seconds. */
  datatype Record =
    | ReadingRecord(locationId: int, temperature: Value, humidity: Value, rainfall: Value,
                    timestamp: int, dataSource: Value)
    | AlertRecord(locationId: int, alertType: Value, severity: Value, description: Value,
                  startTime: int, endTime: int)

  datatype Row = Row(record: Record, status: SyncStatus)

  /** Errors that escape the store operations (only database errors are
      caught there). */
  datatype RaisedError = KeyError(key: string) | AttributeError(name: string)

  // ---------------------------------------------------------------------
  // Payloads
  // ---------------------------------------------------------------------

  /** The reading row built from a payload; the columns are read in
      insertion order and the timestamp must be a point in time. */
  function ParseReading(locationId: int, data: Dict): (r: Result<Record, RaisedError>)
    ensures r.Ok? <==> (&& "temperature" in data && "humidity" in data && "rainfall" in data
                        && "timestamp" in data && data["timestamp"].Time? && "data_source" in data)
    ensures r.Ok? ==> r.value == ReadingRecord(locationId, data["temperature"], data["humidity"],
                                               data["rainfall"], data["timestamp"].t, data["data_source"])
    ensures r.Err? && r.error.KeyError? ==> r.error.key !in data
    ensures "temperature" !in data ==> r == Err(KeyError("temperature"))
  {
    if "temperature" !in data then Err(KeyError("temperature"))
    else if "humidity" !in data then Err(KeyError("humidity"))
    else if "rainfall" !in data then Err(KeyError("rainfall"))
    else if "timestamp" !in data then Err(KeyError("timestamp"))
    else if !data["timestamp"].Time? then Err(AttributeError("isoformat"))
    else if "data_source" !in data then Err(KeyError("data_source"))
    else Ok(ReadingRecord(locationId, data["temperature"], data["humidity"], data["rainfall"],
                          data["timestamp"].t, data["data_source"]))
  }

  /** The alert row built from a payload; both times must be points in
      time. */
  function ParseAlert(locationId: int, data: Dict): (r: Result<Record, RaisedError>)
    ensures r.Ok? <==> (&& "alert_type" in data && "severity" in data && "description" in data
                        && "start_time" in data && data["start_time"].Time?
                        && "end_time" in data && data["end_time"].Time?)
    ensures r.Ok? ==> r.value == AlertRecord(locationId, data["alert_type"], data["severity"],
                                             data["description"], data["start_time"].t, data["end_time"].t)
    ensures r.Err? && r.error.KeyError? ==> r.error.key !in data
  {
    if "alert_type" !in data then Err(KeyError("alert_type"))
    else if "severity" !in data then Err(KeyError("severity"))
    else if "description" !in data then Err(KeyError("description"))
    else if "start_time" !in data then Err(KeyError("start_time"))
    else if !data["start_time"].Time? then Err(AttributeError("isoformat"))
    else if "end_time" !in data then Err(KeyError("end_time"))
    else if !data["end_time"].Time? then Err(AttributeError("isoformat"))
    else Ok(AlertRecord(locationId, data["alert_type"], data["severity"], data["description"],
                        data["start_time"].t, data["end_time"].t))
  }

  // ---------------------------------------------------------------------
  // Table queries
  // ---------------------------------------------------------------------

  /** The records of the pending rows, in table order. */
  function PendingRecords(rows: seq<Row>): (r: seq<Record>)
    ensures |r| <= |rows|
  {
    if |rows| == 0 then []
    else
      var init := rows[..|rows| - 1];
      var last := rows[|rows| - 1];
      assert rows == init + [last];
      PendingRecords(init) + (if last.status == Pending then [last.record] else [])
  }

  /** A record is pending exactly when a pending row holds it. */
  lemma {:induction false} PendingRecordsMembers(rows: seq<Row>)
    ensures forall x :: x in PendingRecords(rows) <==> Row(x, Pending) in rows
    decreases |rows|
  {
    if |rows| > 0 {
      var init := rows[..|rows| - 1];
      PendingRecordsMembers(init);
      assert rows == init + [rows[|rows| - 1]];
    }
  }

  lemma {:induction false} PendingRecordsAppend(a: seq<Row>, b: seq<Row>)
    ensures PendingRecords(a + b) == PendingRecords(a) + PendingRecords(b)
    decreases |b|
  {
    if |b| == 0 {
      assert a + b == a;
    } else {
      var ab := a + b;
      assert ab[..|ab| - 1] == a + b[..|b| - 1];
      assert ab[|ab| - 1] == b[|b| - 1];
      PendingRecordsAppend(a, b[..|b| - 1]);
    }
  }

  /** Every row marked synced, nothing else changed. */
  function MarkSynced(rows: seq<Row>): (r: seq<Row>)
    ensures |r| == |rows|
    ensures forall i :: 0 <= i < |r| ==> r[i].record == rows[i].record && r[i].status == Synced
  {
    seq(|rows|, i requires 0 <= i < |rows| => rows[i].(status := Synced))
  }

  /** After marking, no row is pending and the synced rows are unchanged. */
  lemma {:induction false} MarkSyncedKeepsSyncedRows(rows: seq<Row>)
    ensures PendingRecords(MarkSynced(rows)) == []
    ensures forall i :: 0 <= i < |rows| && rows[i].status == Synced ==> MarkSynced(rows)[i] == rows[i]
    decreases |rows|
  {
    if |rows| > 0 {
      var m := MarkSynced(rows);
      assert m[..|m| - 1] == MarkSynced(rows[..|rows| - 1]);
      MarkSyncedKeepsSyncedRows(rows[..|rows| - 1]);
    }
  }

  /** The longest prefix of `records` that the canonical store accepts. */
  function AcceptedPrefix(records: seq<Record>, accepts: Record -> bool): (r: seq<Record>)
    ensures |r| <= |records|
  {
    if |records| == 0 then []
    else if accepts(records[0]) then
      var rest := AcceptedPrefix(records[1..], accepts);
      assert records == [records[0]] + records[1..];
      [records[0]] + rest
    else []
  }

  /** The accepted prefix is a prefix, every record in it is accepted, and
      the record right after it, if any, is refused. */
  lemma {:induction false} AcceptedPrefixIsLongest(records: seq<Record>, accepts: Record -> bool)
    ensures var r := AcceptedPrefix(records, accepts);
            && r == records[..|r|]
            && (forall x :: x in r ==> accepts(x))
            && (|r| < |records| ==> !accepts(records[|r|]))
  {
    if |records| > 0 && accepts(records[0]) {
      AcceptedPrefixIsLongest(records[1..], accepts);
      var rest := AcceptedPrefix(records[1..], accepts);
      assert records == [records[0]] + records[1..];
      assert forall x :: x in [records[0]] + rest ==> x == records[0] || x in rest;
    }
  }

  lemma {:induction false} AcceptedPrefixAppend(a: seq<Record>, b: seq<Record>, accepts: Record -> bool)
    ensures AcceptedPrefix(a + b, accepts)
            == if AcceptedPrefix(a, accepts) == a then a + AcceptedPrefix(b, accepts) else AcceptedPrefix(a, accepts)
  {
    if |a| == 0 {
      assert a + b == b;
    } else {
      assert (a + b)[0] == a[0];
      assert (a + b)[1..] == a[1..] + b;
      if accepts(a[0]) {
        AcceptedPrefixAppend(a[1..], b, accepts);
        assert a == [a[0]] + a[1..];
      }
    }
  }

  /** Two runs are accepted in full exactly when each is. */
  lemma AcceptedAll(a: seq<Record>, b: seq<Record>, accepts: Record -> bool)
    ensures AcceptedPrefix(a + b, accepts) == a + b
            <==> AcceptedPrefix(a, accepts) == a && AcceptedPrefix(b, accepts) == b
  {
    AcceptedPrefixAppend(a, b, accepts);
    if AcceptedPrefix(a, accepts) != a {
      if AcceptedPrefix(a, accepts) == a + b {
        assert false;
      }
    } else if AcceptedPrefix(b, accepts) != b {
      if a + AcceptedPrefix(b, accepts) == a + b {
        AppendCancels(a, AcceptedPrefix(b, accepts), b);
        assert false;
      }
    }
  }

  lemma AppendCancels(a: seq<Record>, x: seq<Record>, y: seq<Record>)
    requires a + x == a + y
    ensures x == y
  {
    assert x == (a + x)[|a|..];
    assert y == (a + y)[|a|..];
  }

  lemma PendingRecordsStep(rows: seq<Row>, i: int)
    requires 0 <= i < |rows|
    ensures PendingRecords(rows[..i + 1])
            == PendingRecords(rows[..i]) + (if rows[i].status == Pending then [rows[i].record] else [])
  {
    assert rows[..i + 1][..i] == rows[..i];
  }

  lemma AcceptExtends(prefix: seq<Record>, rec: Record, accepts: Record -> bool)
    requires AcceptedPrefix(prefix, accepts) == prefix && accepts(rec)
    ensures AcceptedPrefix(prefix + [rec], accepts) == prefix + [rec]
  {
    AcceptedPrefixAppend(prefix, [rec], accepts);
  }

  /** Once the store refuses a pending row, nothing after it is written. */
  lemma RefusalStops(rows: seq<Row>, i: int, accepts: Record -> bool)
    requires 0 <= i < |rows| && rows[i].status == Pending && !accepts(rows[i].record)
    requires AcceptedPrefix(PendingRecords(rows[..i]), accepts) == PendingRecords(rows[..i])
    ensures AcceptedPrefix(PendingRecords(rows), accepts) == PendingRecords(rows[..i])
    ensures |PendingRecords(rows[..i])| < |PendingRecords(rows)|
  {
    var rec := rows[i].record;
    var head, tail := rows[..i + 1], rows[i + 1..];
    var before, after := PendingRecords(rows[..i]), PendingRecords(tail);
    PendingRecordsStep(rows, i);
    assert PendingRecords(head) == before + [rec];
    assert rows == head + tail;
    PendingRecordsAppend(head, tail);
    assert PendingRecords(rows) == (before + [rec]) + after;
    assert (before + [rec]) + after == before + ([rec] + after);
    RefusalInMiddle(before, rec, after, accepts);
  }

  lemma RefusalInMiddle(before: seq<Record>, rec: Record, after: seq<Record>, accepts: Record -> bool)
    requires AcceptedPrefix(before, accepts) == before && !accepts(rec)
    ensures AcceptedPrefix(before + ([rec] + after), accepts) == before
  {
    assert ([rec] + after)[0] == rec;
    assert AcceptedPrefix([rec] + after, accepts) == [];
    AcceptedPrefixAppend(before, [rec] + after, accepts);
    assert before + [] == before;
  }

  /** A reading row of the location taken at or after `since`. */
  predicate ReadingSelected(row: Row, locationId: int, since: Option<int>) {
    row.record.ReadingRecord? && row.record.locationId == locationId
    && (since.None? || row.record.timestamp >= since.value)
  }

  function ReadingQuery(locationId: int, since: Option<int>): Row -> bool {
    (row: Row) => ReadingSelected(row, locationId, since)
  }

  /** An alert row of the location starting at or after `since`. */
  predicate AlertSelected(row: Row, locationId: int, since: Option<int>) {
    row.record.AlertRecord? && row.record.locationId == locationId
    && (since.None? || row.record.startTime >= since.value)
  }

  function AlertQuery(locationId: int, since: Option<int>): Row -> bool {
    (row: Row) => AlertSelected(row, locationId, since)
  }

  /** A row that cleanup keeps: pending, or not older than the cutoff. */
  predicate Retained(row: Row, cutoff: int) {
    row.status == Pending
    || (row.record.ReadingRecord? && row.record.timestamp >= cutoff)
    || (row.record.AlertRecord? && row.record.endTime >= cutoff)
  }

  function Retain(rows: seq<Row>, cutoff: int): (r: seq<Row>)
    ensures forall row :: row in r <==> row in rows && Retained(row, cutoff)
    ensures IsSubsequence(r, rows)
  {
    if |rows| == 0 then []
    else
      var rest := Retain(rows[1..], cutoff);
      assert forall row :: row in rows <==> row == rows[0] || row in rows[1..];
      if Retained(rows[0], cutoff) then [rows[0]] + rest
      else
        SubsequenceExtend(rest, rows);
        rest
  }

  /** Cleanup keeps every copy of a retained row and no copy of any
      other. */
  lemma {:induction false} RetainMultiplicity(rows: seq<Row>, cutoff: int, row: Row)
    ensures multiset(Retain(rows, cutoff))[row] == if Retained(row, cutoff) then multiset(rows)[row] else 0
    decreases |rows|
  {
    if |rows| > 0 {
      RetainMultiplicity(rows[1..], cutoff, row);
      assert rows == [rows[0]] + rows[1..];
      assert multiset(rows) == multiset{rows[0]} + multiset(rows[1..]);
      if Retained(rows[0], cutoff) {
        var rest := Retain(rows[1..], cutoff);
        assert multiset([rows[0]] + rest) == multiset{rows[0]} + multiset(rest);
      }
    }
  }

  /** Cleanup keeps a table's rows of one kind. */
  lemma RetainKeepsKind(rows: seq<Row>, cutoff: int, kind: Record -> bool)
    requires forall i :: 0 <= i < |rows| ==> kind(rows[i].record)
    ensures forall i :: 0 <= i < |Retain(rows, cutoff)| ==> kind(Retain(rows, cutoff)[i].record)
  {
    var kept := Retain(rows, cutoff);
    forall i | 0 <= i < |kept| ensures kind(kept[i].record) {
      assert kept[i] in kept;
      var j :| 0 <= j < |rows| && rows[j] == kept[i];
    }
  }

  /** Cleanup never removes a pending row. */
  lemma RetainKeepsPending(rows: seq<Row>, cutoff: int)
    ensures PendingRecords(Retain(rows, cutoff)) == PendingRecords(rows)
  {
    RetainPending(rows, cutoff);
  }

  lemma {:induction false} RetainPending(rows: seq<Row>, cutoff: int)
    ensures PendingRecords(Retain(rows, cutoff)) == PendingRecords(rows)
    decreases |rows|
  {
    if |rows| > 0 {
      RetainPending(rows[1..], cutoff);
      assert rows == [rows[0]] + rows[1..];
      PendingRecordsAppend([rows[0]], rows[1..]);
      if Retained(rows[0], cutoff) {
        PendingRecordsAppend([rows[0]], Retain(rows[1..], cutoff));
      } else {
        assert PendingRecords([rows[0]]) == PendingRecords([]) + [];
      }
    }
  }

  function CountPending(rows: seq<Row>): (n: nat)
    ensures n <= |rows|
    ensures n == |PendingRecords(rows)|
  {
    |PendingRecords(rows)|
  }

  datatype StorageStats = StorageStats(weatherDataCount: nat, alertsCount: nat, pendingSyncCount: nat)

  // ---------------------------------------------------------------------
  // Rate limiting
  // ---------------------------------------------------------------------

  /** The rate check as written: a live marker makes the age computation
      fail, so the sync reports failure; no marker lets it proceed (None). */
  function RateCheckAsWritten(marker: Option<int>): (r: Option<bool>)
    ensures marker.Some? <==> r == Some(false)
    ensures marker.None? <==> r.None?
  {
    if marker.Some? then Some(false) else None
  }

  /** The rate check as intended: a marker younger than the interval makes
      the sync succeed without doing anything. */
  function RateCheck(marker: Option<int>, now: int, intervalHours: int): (r: Option<bool>)
    ensures r.Some? <==> marker.Some? && now - marker.value < intervalHours * SecondsPerHour
    ensures r.Some? ==> r.value
  {
    if marker.Some? && now - marker.value < intervalHours * SecondsPerHour then Some(true) else None
  }

  /** A sync one second after a successful one: the written check reports
      failure, the intended one reports success. */
  lemma RateCheckDiffers(now: int)
    ensures RateCheckAsWritten(Some(now - 1)) == Some(false)
    ensures RateCheck(Some(now - 1), now, SyncFrequencyHours) == Some(true)
  {
  }

  // ---------------------------------------------------------------------
  // The manager
  // ---------------------------------------------------------------------

  class OfflineDataManager {
    var syncInterval: nat        // hours
    var minStorageDays: nat
    var tablesExist: bool
    var readings: seq<Row>
    var alerts: seq<Row>
    var lastSync: map<int, int>  // location id -> time the marker was set
    var canonical: seq<Record>

    /** Tables hold rows of their own kind, and are empty before they exist. */
    ghost predicate Valid()
      reads this
    {
      && (forall i :: 0 <= i < |readings| ==> readings[i].record.ReadingRecord?)
      && (forall i :: 0 <= i < |alerts| ==> alerts[i].record.AlertRecord?)
      && (!tablesExist ==> readings == [] && alerts == [])
    }

    constructor ()
      ensures Valid()
      ensures syncInterval == SyncFrequencyHours && minStorageDays == MinStorageDays
      ensures !tablesExist && readings == [] && alerts == [] && lastSync == map[] && canonical == []
    {
      syncInterval := SyncFrequencyHours;
      minStorageDays := MinStorageDays;
      tablesExist := false;
      readings := [];
      alerts := [];
      lastSync := map[];
      canonical := [];
    }

    /** Creates the tables when absent; existing tables are left as they are. */
    method Initialize()
      requires Valid()
      modifies this`tablesExist
      ensures Valid() && tablesExist
    {
      tablesExist := true;
    }

    /** The sync marker of a location as the cache returns it: present until
        its time-to-live of `syncInterval` hours runs out. */
    function LiveMarker(locationId: int, now: int): (r: Option<int>)
      reads this
      ensures r.Some? <==> locationId in lastSync && now < lastSync[locationId] + syncInterval * SecondsPerHour
      ensures r.Some? ==> r.value == lastSync[locationId]
    {
      if locationId in lastSync && now < lastSync[locationId] + syncInterval * SecondsPerHour
      then Some(lastSync[locationId]) else None
    }

    /** Appends a pending row of the given kind; any other kind writes
        nothing and reports success. A missing column raises; a missing
        table reports failure. */
    method Store(locationId: int, kind: string, data: Dict) returns (r: Result<bool, RaisedError>)
      requires Valid()
      modifies this`readings, this`alerts
      ensures Valid()
      ensures kind == "weather_data" ==>
                match ParseReading(locationId, data)
                case Err(e) => r == Err(e) && readings == old(readings) && alerts == old(alerts)
                case Ok(rec) =>
                  if tablesExist then r == Ok(true) && readings == old(readings) + [Row(rec, Pending)] && alerts == old(alerts)
                  else r == Ok(false) && readings == old(readings) && alerts == old(alerts)
      ensures kind == "alert" ==>
                match ParseAlert(locationId, data)
                case Err(e) => r == Err(e) && readings == old(readings) && alerts == old(alerts)
                case Ok(rec) =>
                  if tablesExist then r == Ok(true) && alerts == old(alerts) + [Row(rec, Pending)] && readings == old(readings)
                  else r == Ok(false) && readings == old(readings) && alerts == old(alerts)
      ensures kind != "weather_data" && kind != "alert" ==>
                r == Ok(true) && readings == old(readings) && alerts == old(alerts)
    {
      if kind == "weather_data" {
        var parsed := ParseReading(locationId, data);
        if parsed.Err? {
          return Err(parsed.error);
        }
        if !tablesExist {
          return Ok(false);
        }
        readings := readings + [Row(parsed.value, Pending)];
        r := Ok(true);
      } else if kind == "alert" {
        var parsed := ParseAlert(locationId, data);
        if parsed.Err? {
          return Err(parsed.error);
        }
        if !tablesExist {
          return Ok(false);
        }
        alerts := alerts + [Row(parsed.value, Pending)];
        r := Ok(true);
      } else {
        r := Ok(true);
      }
    }

    /** The stored rows of a location of the given kind ("weather_data" or
        "alerts"), optionally only those from `since` on; any other kind,
        or missing tables, give no rows. */
    function OfflineData(locationId: int, kind: string, since: Option<int>): (r: seq<Row>)
      reads this
      ensures kind == "weather_data" && tablesExist ==>
                forall row :: row in r <==> row in readings && ReadingSelected(row, locationId, since)
      ensures kind == "alerts" && tablesExist ==>
                forall row :: row in r <==> row in alerts && AlertSelected(row, locationId, since)
      ensures (kind != "weather_data" && kind != "alerts") || !tablesExist ==> r == []
      ensures IsSubsequence(r, if kind == "weather_data" then readings else alerts)
    {
      if !tablesExist then []
      else if kind == "weather_data" then
        FilterIsSubsequence(readings, ReadingQuery(locationId, since));
        Filter(readings, ReadingQuery(locationId, since))
      else if kind == "alerts" then
        FilterIsSubsequence(alerts, AlertQuery(locationId, since));
        Filter(alerts, AlertQuery(locationId, since))
      else []
    }

    /** The stored data keeps every copy of a selected row and no copy of
        any other. */
    lemma OfflineDataMultiplicity(locationId: int, kind: string, since: Option<int>, row: Row)
      ensures kind == "weather_data" && tablesExist ==>
                multiset(OfflineData(locationId, kind, since))[row]
                == if ReadingSelected(row, locationId, since) then multiset(readings)[row] else 0
      ensures kind == "alerts" && tablesExist ==>
                multiset(OfflineData(locationId, kind, since))[row]
                == if AlertSelected(row, locationId, since) then multiset(alerts)[row] else 0
    {
      FilterMultiplicity(readings, ReadingQuery(locationId, since), row);
      FilterMultiplicity(alerts, AlertQuery(locationId, since), row);
    }

    /** Writes the canonical record of every pending row, in order, until
        the store refuses one; reports whether all were written and returns
        the rows as they are once marked synced. */
    method SyncTable(rows: seq<Row>, accepts: Record -> bool) returns (ok: bool, synced: seq<Row>)
      modifies this`canonical
      ensures canonical == old(canonical) + AcceptedPrefix(PendingRecords(rows), accepts)
      ensures ok <==> AcceptedPrefix(PendingRecords(rows), accepts) == PendingRecords(rows)
      ensures ok ==> synced == MarkSynced(rows)
    {
      synced := rows;
      var i := 0;
      while i < |rows|
        invariant 0 <= i <= |rows|
        invariant canonical == old(canonical) + PendingRecords(rows[..i])
        invariant AcceptedPrefix(PendingRecords(rows[..i]), accepts) == PendingRecords(rows[..i])
        invariant |synced| == |rows|
        invariant forall j :: 0 <= j < |rows| ==> synced[j] == if j < i then rows[j].(status := Synced) else rows[j]
      {
        PendingRecordsStep(rows, i);
        if rows[i].status == Pending {
          var rec := rows[i].record;
          if !accepts(rec) {
            RefusalStops(rows, i, accepts);
            return false, synced;
          }
          AcceptExtends(PendingRecords(rows[..i]), rec, accepts);
          assert PendingRecords(rows[..i + 1]) == PendingRecords(rows[..i]) + [rec];
          canonical := canonical + [rec];
          synced := synced[i := rows[i].(status := Synced)];
        } else {
          assert PendingRecords(rows[..i + 1]) == PendingRecords(rows[..i]) + [];
          assert PendingRecords(rows[..i]) + [] == PendingRecords(rows[..i]);
        }
        i := i + 1;
      }
      assert rows[..i] == rows;
      ok := true;
    }

    /** Writes the pending readings, then the pending alerts, stopping at
        the first refusal; returns whether everything was written and both
        tables as they are once marked synced. The tables themselves are
        left alone. */
    method SyncTables(accepts: Record -> bool) returns (ok: bool, newReadings: seq<Row>, newAlerts: seq<Row>)
      modifies this`canonical
      ensures var all := PendingRecords(readings) + PendingRecords(alerts);
              && canonical == old(canonical) + AcceptedPrefix(all, accepts)
              && (ok <==> AcceptedPrefix(all, accepts) == all)
      ensures ok ==> newReadings == MarkSynced(readings) && newAlerts == MarkSynced(alerts)
    {
      ghost var before := canonical;
      var fromReadings, fromAlerts := PendingRecords(readings), PendingRecords(alerts);
      ghost var all := fromReadings + fromAlerts;
      AcceptedPrefixAppend(fromReadings, fromAlerts, accepts);
      AcceptedAll(fromReadings, fromAlerts, accepts);
      var okReadings;
      okReadings, newReadings := SyncTable(readings, accepts);
      if !okReadings {
        assert AcceptedPrefix(all, accepts) == AcceptedPrefix(fromReadings, accepts) != all;
        return false, newReadings, alerts;
      }
      var okAlerts;
      okAlerts, newAlerts := SyncTable(alerts, accepts);
      assert AcceptedPrefix(all, accepts) == fromReadings + AcceptedPrefix(fromAlerts, accepts);
      assert canonical == (before + fromReadings) + AcceptedPrefix(fromAlerts, accepts);
      ok := okAlerts;
    }

    /** One sync pass over both tables, readings first. Success commits the
        status changes and sets the location's marker; failure leaves the
        tables and the marker as they were, while the canonical records
        written before the refusal stay. */
    method SyncPass(locationId: int, now: int, accepts: Record -> bool) returns (ok: bool)
      requires Valid()
      modifies this`canonical, this`readings, this`alerts, this`lastSync
      ensures Valid()
      ensures var all := PendingRecords(old(readings)) + PendingRecords(old(alerts));
              && canonical == old(canonical) + (if old(tablesExist) then AcceptedPrefix(all, accepts) else [])
              && (ok <==> old(tablesExist) && AcceptedPrefix(all, accepts) == all)
      ensures ok ==> && readings == MarkSynced(old(readings)) && alerts == MarkSynced(old(alerts))
                     && lastSync == old(lastSync)[locationId := now]
      ensures !ok ==> readings == old(readings) && alerts == old(alerts) && lastSync == old(lastSync)
    {
      if !tablesExist {
        return false;
      }
      var newReadings, newAlerts;
      ok, newReadings, newAlerts := SyncTables(accepts);
      if ok {
        readings, alerts := newReadings, newAlerts;
        lastSync := lastSync[locationId := now];
      }
    }

    /** The sync as written: a live marker always ends it with failure. */
    method SyncAsWritten(locationId: int, now: int, accepts: Record -> bool) returns (ok: bool)
      requires Valid()
      modifies this`canonical, this`readings, this`alerts, this`lastSync
      ensures Valid()
      ensures old(LiveMarker(locationId, now)).Some? ==>
                !ok && canonical == old(canonical) && readings == old(readings)
                && alerts == old(alerts) && lastSync == old(lastSync)
      ensures old(LiveMarker(locationId, now)).None? ==>
                var all := PendingRecords(old(readings)) + PendingRecords(old(alerts));
                && canonical == old(canonical) + (if old(tablesExist) then AcceptedPrefix(all, accepts) else [])
                && (ok <==> old(tablesExist) && AcceptedPrefix(all, accepts) == all)
                && (ok ==> readings == MarkSynced(old(readings)) && alerts == MarkSynced(old(alerts))
                           && lastSync == old(lastSync)[locationId := now])
                && (!ok ==> readings == old(readings) && alerts == old(alerts) && lastSync == old(lastSync))
    {
      var check := RateCheckAsWritten(LiveMarker(locationId, now));
      if check.Some? {
        return check.value;
      }
      ok := SyncPass(locationId, now, accepts);
    }

    /** The sync as intended: within `syncInterval` hours of the last sync
        of the location it succeeds without touching anything. */
    method Sync(locationId: int, now: int, accepts: Record -> bool) returns (ok: bool)
      requires Valid()
      modifies this`canonical, this`readings, this`alerts, this`lastSync
      ensures Valid()
      ensures old(LiveMarker(locationId, now)).Some? ==>
                ok && canonical == old(canonical) && readings == old(readings)
                && alerts == old(alerts) && lastSync == old(lastSync)
      ensures old(LiveMarker(locationId, now)).None? ==>
                var all := PendingRecords(old(readings)) + PendingRecords(old(alerts));
                && canonical == old(canonical) + (if old(tablesExist) then AcceptedPrefix(all, accepts) else [])
                && (ok <==> old(tablesExist) && AcceptedPrefix(all, accepts) == all)
                && (ok ==> readings == MarkSynced(old(readings)) && alerts == MarkSynced(old(alerts))
                           && lastSync == old(lastSync)[locationId := now])
                && (!ok ==> readings == old(readings) && alerts == old(alerts) && lastSync == old(lastSync))
    {
      var marker := LiveMarker(locationId, now);
      var check := RateCheck(marker, now, syncInterval);
      if marker.Some? {
        assert now - marker.value < syncInterval * SecondsPerHour;
        assert check == Some(true);
      }
      if check.Some? {
        return check.value;
      }
      ok := SyncPass(locationId, now, accepts);
    }

    /** Deletes the synced rows older than `minStorageDays` days: readings by
        their timestamp, alerts by their end time. */
    method Cleanup(now: int)
      requires Valid()
      modifies this`readings, this`alerts
      ensures Valid()
      ensures readings == Retain(old(readings), now - minStorageDays * SecondsPerDay)
      ensures alerts == Retain(old(alerts), now - minStorageDays * SecondsPerDay)
    {
      var cutoff := now - minStorageDays * SecondsPerDay;
      var keptReadings := Retain(readings, cutoff);
      var keptAlerts := Retain(alerts, cutoff);
      RetainKeepsKind(readings, cutoff, (rec: Record) => rec.ReadingRecord?);
      RetainKeepsKind(alerts, cutoff, (rec: Record) => rec.AlertRecord?);
      readings, alerts := keptReadings, keptAlerts;
    }

    /** Row counts, absent when the tables do not exist. */
    function Stats(): (r: Option<StorageStats>)
      reads this
      ensures r.Some? <==> tablesExist
      ensures r.Some? ==> && r.value.weatherDataCount == |readings| && r.value.alertsCount == |alerts|
                          && r.value.pendingSyncCount == |PendingRecords(readings)|
                          && r.value.pendingSyncCount <= r.value.weatherDataCount
    {
      if tablesExist then Some(StorageStats(|readings|, |alerts|, CountPending(readings))) else None
    }
  }

  /** A filter keeps the kept elements in their order. */
  lemma {:induction false} FilterIsSubsequence<T>(s: seq<T>, p: T -> bool)
    ensures IsSubsequence(Filter(s, p), s)
  {
    if |s| > 0 {
      FilterIsSubsequence(s[1..], p);
      if !p(s[0]) {
        SubsequenceExtend(Filter(s[1..], p), s);
      } else {
        assert Filter(s, p)[1..] == Filter(s[1..], p);
      }
    }
  }
}
