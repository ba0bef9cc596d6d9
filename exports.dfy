/** The calls the orchestrators make on the external backup library
    (`backupTablesMetadata`, `backupTable`, `backupConfigs`) and the
    `Table i/N` progress lines they log, recorded as a trace of events, and
    the specification of the per-table part of that trace. */
module Exports {

  /** The backup object a storage backend hands out: where the library writes. */
  datatype BackupHandle =
    | S3Handle(bucket: string, path: string)
    | AbsHandle(container: string)
    | GcsHandle(bucket: string, path: string, generateSignedUrls: bool)

  datatype Event =
    | TablesMetadata(target: BackupHandle)
    | Progress(position: nat, total: nat)
    | TableData(target: BackupHandle, tableId: string)
    | Configurations(target: BackupHandle, includeVersions: bool)

  /** What the backup library and the logger have been asked to do so far. */
  class ExportLog {
    var events: seq<Event>

    constructor ()
      ensures events == []
    {
      events := [];
    }

    method BackupTablesMetadata(target: BackupHandle)
      modifies this
      ensures events == old(events) + [TablesMetadata(target)]
    {
      events := events + [TablesMetadata(target)];
    }

    /** The `Table i/N` info line. */
    method LogTableProgress(position: nat, total: nat)
      modifies this
      ensures events == old(events) + [Progress(position, total)]
    {
      events := events + [Progress(position, total)];
    }

    method BackupTable(target: BackupHandle, tableId: string)
      modifies this
      ensures events == old(events) + [TableData(target, tableId)]
    {
      events := events + [TableData(target, tableId)];
    }

    method BackupConfigs(target: BackupHandle, includeVersions: bool)
      modifies this
      ensures events == old(events) + [Configurations(target, includeVersions)]
    {
      events := events + [Configurations(target, includeVersions)];
    }
  }

  /** The events of the table loop after its first `n` iterations: a table
      on the exclusion list is skipped; any other gets a progress line
      numbered by its position in the full listing, then its export. */
  function TableEvents(target: BackupHandle, tables: seq<string>, excluded: seq<string>, n: nat): seq<Event>
    requires n <= |tables|
  {
    if n == 0 then []
    else TableEvents(target, tables, excluded, n - 1)
         + (if tables[n - 1] in excluded then [] else [Progress(n, |tables|), TableData(target, tables[n - 1])])
  }

  /** The tables of a listing that are not excluded, in listing order. */
  function Included(tables: seq<string>, excluded: seq<string>): seq<string> {
    if tables == [] then []
    else Included(tables[..|tables| - 1], excluded)
         + (if tables[|tables| - 1] in excluded then [] else [tables[|tables| - 1]])
  }

  /** The ids of the tables a trace exports, in the order it exports them. */
  function ExportedTables(events: seq<Event>): seq<string> {
    if events == [] then []
    else ExportedTables(events[..|events| - 1])
         + (if events[|events| - 1].TableData? then [events[|events| - 1].tableId] else [])
  }

  lemma {:induction false} ExportedTablesAppend(a: seq<Event>, b: seq<Event>)
    ensures ExportedTables(a + b) == ExportedTables(a) + ExportedTables(b)
  {
    if b != [] {
      assert (a + b)[..|a + b| - 1] == a + b[..|b| - 1];
      ExportedTablesAppend(a, b[..|b| - 1]);
    } else {
      assert a + b == a;
    }
  }

  /** An export framed by the metadata call and at most one closing call
      that exports no table exports exactly what its middle part exports. */
  lemma FramedExport(target: BackupHandle, middle: seq<Event>, tail: seq<Event>)
    requires |tail| <= 1 && (|tail| == 1 ==> !tail[0].TableData?)
    ensures ExportedTables([TablesMetadata(target)] + middle + tail) == ExportedTables(middle)
    ensures forall e :: e in [TablesMetadata(target)] + middle + tail && e.TableData? ==> e in middle
  {
    var head := [TablesMetadata(target)];
    ExportedTablesAppend(head + middle, tail);
    ExportedTablesAppend(head, middle);
    assert head[..0] == [] && tail[..0] == [];
  }

  /** The loop exports exactly the listed tables that are not excluded, each
      once, in listing order. */
  lemma {:induction false} TableEventsExportIncluded(target: BackupHandle, tables: seq<string>, excluded: seq<string>, n: nat)
    requires n <= |tables|
    ensures ExportedTables(TableEvents(target, tables, excluded, n)) == Included(tables[..n], excluded)
  {
    if n > 0 {
      TableEventsExportIncluded(target, tables, excluded, n - 1);
      var step := if tables[n - 1] in excluded then [] else [Progress(n, |tables|), TableData(target, tables[n - 1])];
      ExportedTablesAppend(TableEvents(target, tables, excluded, n - 1), step);
      if step != [] {
        assert step[..1] == [Progress(n, |tables|)];
        assert ExportedTables(step[..1]) == [];
      }
      assert tables[..n][..n - 1] == tables[..n - 1];
    }
  }

  /** Nothing on the exclusion list is ever exported, and every export
      writes to the backup it was given. */
  lemma {:induction false} TableEventsSkipExcluded(target: BackupHandle, tables: seq<string>, excluded: seq<string>, n: nat)
    requires n <= |tables|
    ensures forall e :: e in TableEvents(target, tables, excluded, n) && e.TableData? ==>
              e.tableId !in excluded && e.target == target
    ensures forall e :: e in TableEvents(target, tables, excluded, n) ==> e.Progress? || e.TableData?
  {
    if n > 0 {
      TableEventsSkipExcluded(target, tables, excluded, n - 1);
    }
  }

  /** Every progress line of `ev` carries the table's position in the full
      listing (index plus one, at most `n`) over the full listing's size,
      names a table that is not excluded, and is followed by that table's
      export. */
  predicate ProgressFollowed(ev: seq<Event>, target: BackupHandle, tables: seq<string>, excluded: seq<string>, n: nat) {
    forall j :: 0 <= j < |ev| && ev[j].Progress? ==>
      && ev[j].total == |tables|
      && 1 <= ev[j].position <= n
      && ev[j].position <= |tables|
      && tables[ev[j].position - 1] !in excluded
      && j + 1 < |ev|
      && ev[j + 1] == TableData(target, tables[ev[j].position - 1])
  }

  /** Every export of `ev` is preceded by the progress line that names its
      table. */
  predicate ExportsAnnounced(ev: seq<Event>, tables: seq<string>) {
    forall j :: 0 <= j < |ev| && ev[j].TableData? ==>
      && 0 < j
      && ev[j - 1].Progress?
      && 1 <= ev[j - 1].position <= |tables|
      && ev[j].tableId == tables[ev[j - 1].position - 1]
  }

  /** Progress lines and exports come in pairs, each line announcing the
      export that follows it. */
  predicate ProgressAnnounces(ev: seq<Event>, target: BackupHandle, tables: seq<string>, excluded: seq<string>, n: nat) {
    ProgressFollowed(ev, target, tables, excluded, n) && ExportsAnnounced(ev, tables)
  }

  /** The loop numbers its progress lines by position in the full listing:
      excluded tables still count toward the size and leave gaps in the
      numbering; every line is followed by the export it announces, and
      every export follows its announcement. */
  lemma TableEventsProgress(target: BackupHandle, tables: seq<string>, excluded: seq<string>, n: nat)
    requires n <= |tables|
    ensures ProgressAnnounces(TableEvents(target, tables, excluded, n), target, tables, excluded, n)
  {
    TableEventsProgressFollowed(target, tables, excluded, n);
    TableEventsExportsAnnounced(target, tables, excluded, n);
  }

  lemma {:induction false} TableEventsProgressFollowed(target: BackupHandle, tables: seq<string>, excluded: seq<string>, n: nat)
    requires n <= |tables|
    ensures ProgressFollowed(TableEvents(target, tables, excluded, n), target, tables, excluded, n)
  {
    if n > 0 {
      TableEventsProgressFollowed(target, tables, excluded, n - 1);
      var prev := TableEvents(target, tables, excluded, n - 1);
      var ev := TableEvents(target, tables, excluded, n);
      var step := if tables[n - 1] in excluded then [] else [Progress(n, |tables|), TableData(target, tables[n - 1])];
      assert ev == prev + step;
      forall j | 0 <= j < |ev| && ev[j].Progress?
        ensures && ev[j].total == |tables|
                && 1 <= ev[j].position <= n
                && ev[j].position <= |tables|
                && tables[ev[j].position - 1] !in excluded
                && j + 1 < |ev|
                && ev[j + 1] == TableData(target, tables[ev[j].position - 1])
      {
        if j < |prev| {
          assert ev[j] == prev[j];
          assert j + 1 < |prev|;
          assert ev[j + 1] == prev[j + 1];
        } else {
          assert step != [] && j == |prev|;
          assert ev[j] == Progress(n, |tables|);
          assert ev[j + 1] == TableData(target, tables[n - 1]);
        }
      }
    }
  }

  lemma {:induction false} TableEventsExportsAnnounced(target: BackupHandle, tables: seq<string>, excluded: seq<string>, n: nat)
    requires n <= |tables|
    ensures ExportsAnnounced(TableEvents(target, tables, excluded, n), tables)
  {
    if n > 0 {
      TableEventsExportsAnnounced(target, tables, excluded, n - 1);
      var prev := TableEvents(target, tables, excluded, n - 1);
      var ev := TableEvents(target, tables, excluded, n);
      var step := if tables[n - 1] in excluded then [] else [Progress(n, |tables|), TableData(target, tables[n - 1])];
      assert ev == prev + step;
      forall j | 0 <= j < |ev| && ev[j].TableData?
        ensures && 0 < j
                && ev[j - 1].Progress?
                && 1 <= ev[j - 1].position <= |tables|
                && ev[j].tableId == tables[ev[j - 1].position - 1]
      {
        if j < |prev| {
          assert ev[j] == prev[j];
          assert ev[j - 1] == prev[j - 1];
        } else {
          assert step != [];
          assert ev[|prev|] == Progress(n, |tables|);
          assert j == |prev| + 1;
        }
      }
    }
  }

  /** The positions the progress lines of a trace carry, in trace order. */
  function ProgressPositions(events: seq<Event>): seq<nat> {
    if events == [] then []
    else ProgressPositions(events[..|events| - 1])
         + (if events[|events| - 1].Progress? then [events[|events| - 1].position] else [])
  }

  lemma {:induction false} ProgressPositionsAppend(a: seq<Event>, b: seq<Event>)
    ensures ProgressPositions(a + b) == ProgressPositions(a) + ProgressPositions(b)
  {
    if b != [] {
      assert (a + b)[..|a + b| - 1] == a + b[..|b| - 1];
      ProgressPositionsAppend(a, b[..|b| - 1]);
    } else {
      assert a + b == a;
    }
  }

  /** A progress line and an export carry the line's position. */
  lemma PairPositions(position: nat, total: nat, target: BackupHandle, tableId: string)
    ensures ProgressPositions([Progress(position, total), TableData(target, tableId)]) == [position]
  {
    var pair := [Progress(position, total), TableData(target, tableId)];
    var first := [Progress(position, total)];
    assert pair[..1] == first && first[..0] == [];
    assert ProgressPositions(first) == [position];
  }

  /** The positions (index plus one) of the first `n` listed tables that are
      not excluded, in listing order. */
  function AnnouncedPositions(tables: seq<string>, excluded: seq<string>, n: nat): seq<nat>
    requires n <= |tables|
  {
    if n == 0 then []
    else AnnouncedPositions(tables, excluded, n - 1) + (if tables[n - 1] in excluded then [] else [n])
  }

  /** The announced positions increase strictly, each names a table that is
      not excluded, and none of those tables is missed. */
  lemma {:induction false} AnnouncedPositionsExact(tables: seq<string>, excluded: seq<string>, n: nat)
    requires n <= |tables|
    ensures var r := AnnouncedPositions(tables, excluded, n);
            && (forall k :: 0 <= k < |r| ==> 1 <= r[k] <= n && tables[r[k] - 1] !in excluded)
            && (forall k, l :: 0 <= k < l < |r| ==> r[k] < r[l])
            && (forall i :: 0 <= i < n && tables[i] !in excluded ==> i + 1 in r)
  {
    if n > 0 {
      AnnouncedPositionsExact(tables, excluded, n - 1);
    }
  }

  /** With nothing excluded the positions are 1, 2, …, n. */
  lemma {:induction false} AnnouncedWithoutExclusions(tables: seq<string>, n: nat)
    requires n <= |tables|
    ensures AnnouncedPositions(tables, [], n) == seq(n, i => i + 1)
  {
    if n > 0 {
      AnnouncedWithoutExclusions(tables, n - 1);
      assert seq(n, i => i + 1) == seq(n - 1, i => i + 1) + [n];
    }
  }

  /** The loop announces exactly the tables that are not excluded, in
      listing order, each by its own position. */
  lemma {:induction false} TableEventsProgressPositions(target: BackupHandle, tables: seq<string>, excluded: seq<string>, n: nat)
    requires n <= |tables|
    ensures ProgressPositions(TableEvents(target, tables, excluded, n)) == AnnouncedPositions(tables, excluded, n)
  {
    if n > 0 {
      TableEventsProgressPositions(target, tables, excluded, n - 1);
      var prev := TableEvents(target, tables, excluded, n - 1);
      var step := if tables[n - 1] in excluded then [] else [Progress(n, |tables|), TableData(target, tables[n - 1])];
      assert TableEvents(target, tables, excluded, n) == prev + step;
      ProgressPositionsAppend(prev, step);
      if step != [] {
        PairPositions(n, |tables|, target, tables[n - 1]);
      }
    }
  }

  /** With an empty exclusion list every listed table is exported, in order. */
  lemma {:induction false} IncludedWithoutExclusions(tables: seq<string>)
    ensures Included(tables, []) == tables
  {
    if tables != [] {
      IncludedWithoutExclusions(tables[..|tables| - 1]);
    }
  }
}
