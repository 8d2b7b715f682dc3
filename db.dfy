/** The SQLite store (src/db/mod.rs): schema migrations with their version
    bookkeeping, the writers the create-event indexer uses, and the
    MAX/COALESCE and COUNT readers. Each table is a sequence of rows. */
module Db {
  import opened Common

  /** The object each entry of `MIGRATIONS` creates, in order. */
  const MIGRATIONS: seq<string> := [
    "table blockchain",
    "index blockchain_height_dx",
    "table name_nsid",
    "index name_nsid_nsid_idx",
    "index name_nsid_parent_idx",
    "table create_events",
    "table records_events",
    "index records_events_unique_idx",
    "index records_events_created_at_idx",
    "view name_records_vw",
    "view top_level_names_vw"
  ]

  /** Creating an object that exists already fails; no migration says
      `IF NOT EXISTS`. */
  function AlreadyExists(k: nat): Error
    requires k < |MIGRATIONS|
  {
    Message(MIGRATIONS[k] + " already exists")
  }

  datatype BlockchainRow = BlockchainRow(nsid: Nsid, blockhash: seq<byte>, txid: seq<byte>, vout: nat, height: nat)
  datatype NameNsidRow = NameNsidRow(name: string, nsid: Nsid, root: Nsid, parent: Option<Nsid>, pubkey: Pubkey)
  datatype CreateEventRow = CreateEventRow(nsid: Nsid, pubkey: Pubkey, createdAt: nat, eventId: seq<byte>,
                                           name: string, children: string)
  datatype RecordsEventRow = RecordsEventRow(nsid: Nsid, pubkey: Pubkey, createdAt: nat, eventId: seq<byte>,
                                             name: string, records: string)

  /** The integers `lo`, `lo + 1`, ..., `hi - 1`. */
  function Range(lo: nat, hi: nat): (r: seq<nat>)
    ensures |r| == if lo <= hi then hi - lo else 0
    decreases hi
  {
    if lo < hi then Range(lo, hi - 1) + [hi - 1] else []
  }

  /** The element at each position of a range. */
  lemma {:induction false} RangeAt(lo: nat, hi: nat)
    ensures forall i :: 0 <= i < |Range(lo, hi)| ==> Range(lo, hi)[i] == lo + i
    decreases hi
  {
    if lo < hi {
      RangeAt(lo, hi - 1);
    }
  }

  lemma RangeSnoc(lo: nat, hi: nat)
    requires lo <= hi
    ensures Range(lo, hi) + [hi] == Range(lo, hi + 1)
  {
  }

  /** Recording one more number after rows `prefix + Range(lo, hi)`. */
  lemma RecordNext(prefix: seq<nat>, lo: nat, hi: nat, next: nat)
    requires lo <= hi && next == hi + 1
    ensures prefix + Range(lo, hi) + [hi] == prefix + Range(lo, next)
  {
    RangeSnoc(lo, hi);
    assert prefix + Range(lo, hi) + [hi] == prefix + (Range(lo, hi) + [hi]);
  }

  /** The migrations numbered `lo` to `hi - 1`, as a set of objects. */
  function Upto(lo: nat, hi: nat): set<nat>
    decreases hi
  {
    if lo < hi then Upto(lo, hi - 1) + {hi - 1} else {}
  }

  /** The members of `Upto(lo, hi)`. */
  lemma {:induction false} UptoMembers(lo: nat, hi: nat)
    ensures forall k :: k in Upto(lo, hi) <==> lo <= k < hi
    decreases hi
  {
    if lo < hi {
      UptoMembers(lo, hi - 1);
    }
  }

  /** Creating one more object after those of `prefix + Upto(lo, hi)`. */
  lemma CreateNext(prefix: set<nat>, lo: nat, hi: nat, next: nat)
    requires lo <= hi && next == hi + 1
    ensures prefix + Upto(lo, hi) + {hi} == prefix + Upto(lo, next)
  {
  }

  /** `COALESCE(MAX(x), default)` over a column. */
  function MaxOr(column: seq<nat>, default: nat): (m: nat)
    ensures column == [] ==> m == default
    ensures column != [] ==> m in column
    ensures forall i :: 0 <= i < |column| ==> column[i] <= m
  {
    if column == [] then default
    else if |column| == 1 then column[0]
    else
      var rest := MaxOr(column[..|column| - 1], default);
      var last := column[|column| - 1];
      if rest < last then last else rest
  }

  /** The version `initialize` starts from:
      `SELECT COALESCE(MAX(version) + 1, 0) FROM schema`. */
  function StartVersion(schema: seq<nat>): (v: nat)
    ensures schema == [] ==> v == 0
    ensures forall i :: 0 <= i < |schema| ==> schema[i] < v
    ensures schema != [] ==> v - 1 in schema
  {
    if schema == [] then 0 else MaxOr(schema, 0) + 1
  }

  /** The first migration from `start` on whose object exists already, or
      `|MIGRATIONS|` when there is none: where a run from `start` stops. */
  function FirstClash(created: set<nat>, start: nat): (k: nat)
    requires start <= |MIGRATIONS|
    ensures start <= k <= |MIGRATIONS|
    ensures k < |MIGRATIONS| ==> k in created
    decreases |MIGRATIONS| - start
  {
    if start == |MIGRATIONS| then start
    else if start in created then start
    else FirstClash(created, start + 1)
  }

  /** No migration before the clash has its object already. */
  lemma {:induction false} FirstClashIsFirst(created: set<nat>, start: nat)
    requires start <= |MIGRATIONS|
    ensures forall j :: start <= j < FirstClash(created, start) ==> j !in created
    decreases |MIGRATIONS| - start
  {
    if start < |MIGRATIONS| && start !in created {
      FirstClashIsFirst(created, start + 1);
    }
  }

  /** One step of a migration run: migration `k` clashes with what the run
      itself created or with what was there before exactly when it is where
      the run stops. */
  lemma FirstClashStep(created: set<nat>, start: nat, k: nat)
    requires start <= k < |MIGRATIONS| && k <= FirstClash(created, start)
    ensures k in created + Upto(start, k) <==> k == FirstClash(created, start)
    ensures k !in created + Upto(start, k) ==> k + 1 <= FirstClash(created, start)
  {
    FirstClashIsFirst(created, start);
    UptoMembers(start, k);
  }

  /** A schema table agrees with the database when the migrations that ran
      are exactly those before the version `initialize` would start from. */
  predicate Consistent(schema: seq<nat>, created: set<nat>) {
    created == Upto(0, StartVersion(schema))
  }

  /** The schema rows `initialize` as written adds on a run from `start`
      that stops before `stop`. */
  function RecordedAsWritten(start: nat, stop: nat): seq<nat>
    requires start <= stop
  {
    Range(0, stop - start)
  }

  /** The schema rows the corrected `initialize` adds. */
  function RecordedCorrected(start: nat, stop: nat): seq<nat> {
    Range(start, stop)
  }

  /** The schema rows a run from `start` adds before it stops at `stop`:
      positions within the pending slice as written (`relative`), or
      migration numbers as corrected. */
  function Recorded(relative: bool, start: nat, stop: nat): seq<nat>
    requires start <= stop
  {
    if relative then RecordedAsWritten(start, stop) else RecordedCorrected(start, stop)
  }

  /** The state of a run from `version` after its first `idx` migrations
      succeeded, starting from objects `created0` and schema rows `schema0`. */
  predicate Ran(created0: set<nat>, schema0: seq<nat>, version: nat, idx: nat, relative: bool,
                created: set<nat>, schema: seq<nat>)
    requires version <= |MIGRATIONS|
  {
    && version + idx <= FirstClash(created0, version)
    && created == created0 + Upto(version, version + idx)
    && schema == schema0 + Recorded(relative, version, version + idx)
  }

  /** Migration `version + idx` runs when its object does not exist yet. */
  lemma RanStep(created0: set<nat>, schema0: seq<nat>, version: nat, idx: nat, relative: bool,
                created: set<nat>, schema: seq<nat>)
    requires version + idx < |MIGRATIONS|
    requires Ran(created0, schema0, version, idx, relative, created, schema)
    requires version + idx !in created
    ensures Ran(created0, schema0, version, idx + 1, relative, created + {version + idx},
                schema + [if relative then idx else version + idx])
  {
    FirstClashStep(created0, version, version + idx);
    CreateNext(created0, version, version + idx, version + (idx + 1));
    if relative {
      assert Recorded(true, version, version + idx) == Range(0, idx);
      assert Recorded(true, version, version + (idx + 1)) == Range(0, idx + 1);
      RecordNext(schema0, 0, idx, idx + 1);
    } else {
      RecordNext(schema0, version, version + idx, version + (idx + 1));
    }
  }

  /** A run stops at its first clash, or after the last migration; either
      way, where it stops is `FirstClash`. */
  lemma RanStop(created0: set<nat>, schema0: seq<nat>, version: nat, idx: nat, relative: bool,
                created: set<nat>, schema: seq<nat>)
    requires version + idx <= |MIGRATIONS|
    requires Ran(created0, schema0, version, idx, relative, created, schema)
    requires version + idx == |MIGRATIONS| || version + idx in created
    ensures FirstClash(created0, version) == version + idx
  {
    if version + idx < |MIGRATIONS| {
      FirstClashStep(created0, version, version + idx);
    }
  }

  class Database {
    /** The `version` column of the `schema` table. */
    var schema: seq<nat>
    /** The objects in the database, by the index of the migration that
        creates them. */
    var created: set<nat>
    var blockchain: seq<BlockchainRow>
    var nameNsid: seq<NameNsidRow>
    var createEvents: seq<CreateEventRow>
    var recordsEvents: seq<RecordsEventRow>

    /** A fresh, empty database file. */
    constructor Fresh()
      ensures schema == [] && created == {}
      ensures blockchain == [] && nameNsid == [] && createEvents == [] && recordsEvents == []
    {
      schema := [];
      created := {};
      blockchain := [];
      nameNsid := [];
      createEvents := [];
      recordsEvents := [];
    }

    /** `initialize` AS WRITTEN: runs `MIGRATIONS[version..]` in order and
        after each one records its position `idx` within that slice. The
        slice panics for a start beyond the list, which the recorded
        versions never produce. */
    method Initialize() returns (r: Result<()>)
      modifies this`created, this`schema
      requires StartVersion(schema) <= |MIGRATIONS|
      ensures var start := StartVersion(old(schema));
        var stop := FirstClash(old(created), start);
        && Ran(old(created), old(schema), start, stop - start, true, created, schema)
        && (r.Ok? <==> stop == |MIGRATIONS|)
        && (r.Err? ==> r.error == AlreadyExists(stop))
    {
      var version := StartVersion(schema);
      var pending := MIGRATIONS[version..];
      ghost var created0, schema0 := created, schema;
      var idx := 0;
      while idx < |pending| && version + idx !in created
        invariant 0 <= idx <= |pending|
        invariant Ran(created0, schema0, version, idx, true, created, schema)
      {
        RanStep(created0, schema0, version, idx, true, created, schema);
        created := created + {version + idx};
        schema := schema + [idx];
        idx := idx + 1;
      }
      RanStop(created0, schema0, version, idx, true, created, schema);
      if idx < |pending| {
        r := Err(AlreadyExists(version + idx));
      } else {
        r := Ok(());
      }
    }

    /** `initialize` as evidently intended: the same loop, recording the
        absolute migration number `version + idx`. */
    method InitializeCorrected() returns (r: Result<()>)
      modifies this`created, this`schema
      requires StartVersion(schema) <= |MIGRATIONS|
      ensures var start := StartVersion(old(schema));
        var stop := FirstClash(old(created), start);
        && Ran(old(created), old(schema), start, stop - start, false, created, schema)
        && (r.Ok? <==> stop == |MIGRATIONS|)
        && (r.Err? ==> r.error == AlreadyExists(stop))
    {
      var version := StartVersion(schema);
      var pending := MIGRATIONS[version..];
      ghost var created0, schema0 := created, schema;
      var idx := 0;
      while idx < |pending| && version + idx !in created
        invariant 0 <= idx <= |pending|
        invariant Ran(created0, schema0, version, idx, false, created, schema)
      {
        RanStep(created0, schema0, version, idx, false, created, schema);
        created := created + {version + idx};
        schema := schema + [version + idx];
        idx := idx + 1;
      }
      RanStop(created0, schema0, version, idx, false, created, schema);
      if idx < |pending| {
        r := Err(AlreadyExists(version + idx));
      } else {
        r := Ok(());
      }
    }

    /** `index_name_nsid`: one more `name_nsid` row. */
    method IndexNameNsid(nsid: Nsid, name: string, root: Nsid, parent: Option<Nsid>, pubkey: Pubkey)
      modifies this
      ensures nameNsid == old(nameNsid) + [NameNsidRow(name, nsid, root, parent, pubkey)]
      ensures schema == old(schema) && created == old(created) && blockchain == old(blockchain)
      ensures createEvents == old(createEvents) && recordsEvents == old(recordsEvents)
    {
      nameNsid := nameNsid + [NameNsidRow(name, nsid, root, parent, pubkey)];
    }

    /** `insert_create_event`: one more `create_events` row. */
    method InsertCreateEvent(nsid: Nsid, pubkey: Pubkey, createdAt: nat, eventId: seq<byte>,
                             name: string, children: string)
      modifies this
      ensures createEvents == old(createEvents) + [CreateEventRow(nsid, pubkey, createdAt, eventId, name, children)]
      ensures schema == old(schema) && created == old(created) && blockchain == old(blockchain)
      ensures nameNsid == old(nameNsid) && recordsEvents == old(recordsEvents)
    {
      createEvents := createEvents + [CreateEventRow(nsid, pubkey, createdAt, eventId, name, children)];
    }
  }

  lemma RangeMax(lo: nat, hi: nat)
    requires lo < hi
    ensures StartVersion(Range(lo, hi)) == hi
  {
    var r := Range(lo, hi);
    assert r[|r| - 1] == hi - 1;
  }

  lemma StartVersionAppend(a: seq<nat>, b: seq<nat>)
    requires b != []
    ensures a == [] ==> StartVersion(a + b) == StartVersion(b)
    ensures a != [] && StartVersion(a) < StartVersion(b) ==> StartVersion(a + b) == StartVersion(b)
    ensures a != [] && StartVersion(a) >= StartVersion(b) ==> StartVersion(a + b) == StartVersion(a)
  {
    var ab := a + b;
    assert forall i :: 0 <= i < |b| ==> b[i] == ab[|a| + i];
    assert forall i :: 0 <= i < |a| ==> a[i] == ab[i];
    if a == [] {
      assert ab == b;
    } else {
      var w := if StartVersion(a) < StartVersion(b) then StartVersion(b) else StartVersion(a);
      assert w - 1 in ab;
      assert forall i :: 0 <= i < |ab| ==> ab[i] < w by {
        forall i | 0 <= i < |ab|
          ensures ab[i] < w
        {
          if i < |a| {
            assert ab[i] == a[i];
          } else {
            assert ab[i] == b[i - |a|];
          }
        }
      }
    }
  }

  /** On a fresh database every migration runs once, versions 0 to 10 are
      recorded, and the next start finds nothing left to do; here the code
      as written and the corrected code agree. */
  lemma FreshDatabaseMigratesOnce()
    ensures StartVersion([]) == 0 && FirstClash({}, 0) == |MIGRATIONS|
    ensures RecordedAsWritten(0, |MIGRATIONS|) == RecordedCorrected(0, |MIGRATIONS|) == Range(0, 11)
    ensures Consistent(Range(0, 11), Upto(0, 11))
    ensures StartVersion(Range(0, 11)) == |MIGRATIONS|
  {
    RangeMax(0, 11);
  }

  /** The corrected bookkeeping keeps the schema table consistent with the
      database: after a run that applies every pending migration, the next
      start is past the last one, so the next run applies nothing. */
  lemma CorrectedRunKeepsConsistent(schema: seq<nat>, created: set<nat>)
    requires Consistent(schema, created) && StartVersion(schema) <= |MIGRATIONS|
    ensures var start := StartVersion(schema);
      FirstClash(created, start) == |MIGRATIONS|
    ensures var start := StartVersion(schema);
      var schema', created' := schema + RecordedCorrected(start, 11), created + Upto(start, 11);
      && Consistent(schema', created')
      && StartVersion(schema') == |MIGRATIONS|
  {
    var start := StartVersion(schema);
    var k := FirstClash(created, start);
    UptoMembers(0, start);
    UptoMembers(start, 11);
    UptoMembers(0, 11);
    if k < |MIGRATIONS| {
      assert false;
    }
    var schema' := schema + Range(start, 11);
    assert Upto(0, start) + Upto(start, 11) == Upto(0, 11);
    if start < 11 {
      RangeMax(start, 11);
      StartVersionAppend(schema, Range(start, 11));
    } else {
      assert schema' == schema;
    }
  }

  /** The code as written breaks that consistency: a database whose schema
      already recorded versions 0 to 4 runs migrations 5 to 10 and records
      0 to 5, so the next start is 6 and migration 6 runs again, failing on
      the table it already created. */
  lemma RelativeVersionsRerunMigrations()
    ensures Consistent(Range(0, 5), Upto(0, 5))
    ensures FirstClash(Upto(0, 5), 5) == |MIGRATIONS|
    ensures var schema', created' := Range(0, 5) + RecordedAsWritten(5, 11), Upto(0, 5) + Upto(5, 11);
      && StartVersion(schema') == 6
      && FirstClash(created', 6) == 6
      && !Consistent(schema', created')
  {
    RangeMax(0, 5);
    RangeMax(0, 6);
    StartVersionAppend(Range(0, 5), Range(0, 6));
    UptoMembers(0, 5);
    UptoMembers(5, 11);
    UptoMembers(0, 6);
  }

  /** `next_index_height`: one past the highest indexed block, 1 when none. */
  function NextIndexHeight(rows: seq<BlockchainRow>): (h: nat)
    ensures rows == [] ==> h == 1
    ensures forall i :: 0 <= i < |rows| ==> rows[i].height < h
    ensures rows != [] ==> exists i :: 0 <= i < |rows| && rows[i].height == h - 1
  {
    var heights := seq(|rows|, i requires 0 <= i < |rows| => rows[i].height);
    var m := MaxOr(heights, 0);
    assert forall i :: 0 <= i < |rows| ==> heights[i] == rows[i].height;
    m + 1
  }

  /** `last_create_event_time`: the latest `created_at`, 0 when none. */
  function LastCreateEventTime(rows: seq<CreateEventRow>): (t: nat)
    ensures rows == [] ==> t == 0
    ensures forall i :: 0 <= i < |rows| ==> rows[i].createdAt <= t
    ensures rows != [] ==> exists i :: 0 <= i < |rows| && rows[i].createdAt == t
  {
    var times := seq(|rows|, i requires 0 <= i < |rows| => rows[i].createdAt);
    var m := MaxOr(times, 0);
    assert forall i :: 0 <= i < |rows| ==> times[i] == rows[i].createdAt;
    m
  }

  /** `last_records_time`: the latest `created_at` of a records event, 0 when none. */
  function LastRecordsTime(rows: seq<RecordsEventRow>): (t: nat)
    ensures rows == [] ==> t == 0
    ensures forall i :: 0 <= i < |rows| ==> rows[i].createdAt <= t
    ensures rows != [] ==> exists i :: 0 <= i < |rows| && rows[i].createdAt == t
  {
    var times := seq(|rows|, i requires 0 <= i < |rows| => rows[i].createdAt);
    var m := MaxOr(times, 0);
    assert forall i :: 0 <= i < |rows| ==> times[i] == rows[i].createdAt;
    m
  }

  /** `SELECT COUNT(*) FROM blockchain WHERE nsid = ?`. */
  function CountNsid(rows: seq<BlockchainRow>, nsid: Nsid): nat {
    if rows == [] then 0
    else CountNsid(rows[..|rows| - 1], nsid) + (if rows[|rows| - 1].nsid == nsid then 1 else 0)
  }

  lemma {:induction false} CountNsidPositive(rows: seq<BlockchainRow>, nsid: Nsid)
    ensures CountNsid(rows, nsid) > 0 <==> exists i :: 0 <= i < |rows| && rows[i].nsid == nsid
  {
    if rows != [] {
      var n := |rows| - 1;
      CountNsidPositive(rows[..n], nsid);
      if CountNsid(rows[..n], nsid) > 0 {
        var i :| 0 <= i < n && rows[..n][i].nsid == nsid;
        assert rows[i].nsid == nsid;
      }
      if exists i :: 0 <= i < |rows| && rows[i].nsid == nsid {
        var i :| 0 <= i < |rows| && rows[i].nsid == nsid;
        if i < n {
          assert rows[..n][i].nsid == nsid;
        }
      }
    }
  }

  /** `namespace_exists`: the count read as a boolean, true exactly when
      some block-chain row has the nsid. */
  function NamespaceExists(rows: seq<BlockchainRow>, nsid: Nsid): (b: bool)
    ensures b <==> exists i :: 0 <= i < |rows| && rows[i].nsid == nsid
  {
    CountNsidPositive(rows, nsid);
    CountNsid(rows, nsid) != 0
  }
}
