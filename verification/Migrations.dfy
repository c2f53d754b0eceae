// Bringing an older Host Journal to schema version 8: one transaction a version, with
// crashes, reopenings and competing migrators between them.
module Migrations {
  import opened Base
  import opened Json
  import opened Tables
  import opened Transactions
  import opened JournalInvariants
  import V = Validators
  import Text

  const CURRENT := 8
  const VERSION_KEY := "schema_version"
  const BOUNDARY_KEY := "event_object_refs_start_sequence"
  const METADATA := {VERSION_KEY, BOUNDARY_KEY}

  // Tables and indexes by name.
  datatype SchemaName =
    | HostMetadata | SchemaMigrations | ObjectRefs | ObjectValidation | Streams | Events
    | LegacyObjectRefs | EventObjectRefs | OnePayloadIndex | TaskProjections | TaskExtensionState
    | Leases | BoardMessages | NewsEditions | NewsDateIndex | NewsPublications | TimingIndex
    | Wakeups | RuntimeLinks | TaskEdges | TaskNodes

  const UNOWNED := {Wakeups, RuntimeLinks, TaskEdges, TaskNodes}

  datatype Migration = Migration(sequence: int, fromVersion: int, toVersion: int, name: string, backup: string)

  // The database file: the names of its tables and indexes, its metadata, its migration
  // history and its rows. The event boundary is a metadata value kept in the rows.
  datatype Database = Database(
    path: string,
    shape: set<SchemaName>,
    keys: set<string>,
    version: int,
    history: seq<Migration>,
    unownedRows: nat,
    timed: bool,
    legacy: set<Digest>,
    rows: Db)

  // What version v has, apart from the timing index, which no migration step creates.
  function ShapeAt(v: int): set<SchemaName> {
    {HostMetadata, ObjectRefs, Streams, Events, TaskProjections, Leases}
    + (if v >= 2 then {SchemaMigrations} else {})
    + (if v >= 3 then {ObjectValidation} else {})
    + (if v >= 4 then {LegacyObjectRefs, EventObjectRefs, OnePayloadIndex} else {})
    + (if v >= 5 then {TaskExtensionState} else {})
    + (if v >= 6 then {BoardMessages} else {})
    + (if v >= 8 then {NewsEditions, NewsDateIndex, NewsPublications} else {})
  }

  function CurrentShape(): set<SchemaName> { ShapeAt(CURRENT) + {TimingIndex} }

  function StepName(to: int): string {
    if to == 2 then "remove-unowned-pre-h7-tables"
    else if to == 3 then "cache-verified-object-file-identity"
    else if to == 4 then "bind-event-object-admission"
    else if to == 5 then "preserve-namespaced-extension-state"
    else if to == 6 then "add-host-message-board"
    else if to == 7 then "scope-object-reference-validation"
    else "add-daily-news-projection"
  }

  function BackupName(path: string, to: int): string {
    path + ".pre-schema-v" + (if to < 0 then "" else Text.Decimal(to)) + ".sqlite3"
  }

  function HistoryRow(path: string, sequence: int, from: int): Migration {
    Migration(sequence, from, from + 1, StepName(from + 1), BackupName(path, from + 1))
  }

  // ---- One transaction ----

  // What a step looks at before its transaction.
  predicate Refuses(d: Database, from: int) {
    || (from == 1 && d.unownedRows > 0)
    || (from == 4 && exists i :: 0 <= i < |d.rows.events| && d.rows.events[i].kind.Extension?)
  }

  // The tables a step creates; creating one that exists fails.
  function Creates(from: int): set<SchemaName> {
    if from == 2 then {ObjectValidation}
    else if from == 3 then {LegacyObjectRefs, EventObjectRefs, OnePayloadIndex}
    else if from == 4 then {TaskExtensionState}
    else if from == 5 then {BoardMessages}
    else if from == 7 then {NewsEditions, NewsDateIndex, NewsPublications}
    else {}
  }

  // Board messages leave the startup set only where nothing else names their bytes.
  predicate BoardOnly(d: Database, g: Digest)
    requires g in d.rows.objects
  {
    && d.rows.objects[g].kind == BOARD_OBJECT_KIND
    && (exists i :: 0 <= i < |d.rows.board| && d.rows.board[i].messageDigest == g)
    && !NamedDurably(d, g)
  }

  predicate NamedDurably(d: Database, g: Digest) {
    || (exists i :: 0 <= i < |d.rows.events| && d.rows.events[i].payloadDigest == g)
    || (exists e :: e in d.rows.edges && g in d.rows.edges[e])
    || g in d.legacy
    || (exists key :: key in d.rows.extensions && d.rows.extensions[key].stateDigest == g)
  }

  function Retimed(d: Database): map<Digest, ObjectRow> {
    map g | g in d.rows.objects :: d.rows.objects[g].(timing := if BoardOnly(d, g) then OnAccess else Startup)
  }

  // The body of a step before it advances the version.
  function Restructured(d: Database, from: int): Database {
    if from == 1 then d.(shape := d.shape + {SchemaMigrations} - UNOWNED)
    else if from == 3 then
      d.(shape := d.shape + Creates(3), keys := d.keys + {BOUNDARY_KEY}, legacy := d.rows.objects.Keys,
         rows := d.rows.(boundary := |d.rows.events| + 1))
    else if from == 6 then d.(timed := true, rows := d.rows.(objects := Retimed(d)))
    else d.(shape := d.shape + Creates(from))
  }

  // One migration transaction; None when it rolls back.
  function Migrate(d: Database, from: int): Option<Database> {
    if Creates(from) * d.shape != {} then None
    else if from == 3 && BOUNDARY_KEY in d.keys then None
    else if from == 6 && d.timed then None
    else
      var body := Restructured(d, from);
      if VERSION_KEY !in body.keys || body.version != from then None
      else if SchemaMigrations !in body.shape then None
      else if exists i :: 0 <= i < |d.history| && d.history[i].toVersion == from + 1 then None
      else Some(body.(version := from + 1, history := d.history + [HistoryRow(d.path, |d.history| + 1, from)]))
  }

  // CREATE ... IF NOT EXISTS and INSERT OR IGNORE for all of the current schema.
  function RunScript(d: Database): Database {
    d.(shape := d.shape + CurrentShape(),
       keys := d.keys + METADATA,
       version := if VERSION_KEY in d.keys then d.version else CURRENT,
       timed := d.timed || ObjectRefs !in d.shape,
       rows := if BOUNDARY_KEY in d.keys then d.rows else d.rows.(boundary := 1))
  }

  // ---- Validation ----

  predicate RowFits(path: string, start: int, offset: nat, row: Migration) {
    row == HistoryRow(path, offset + 1, start + offset)
  }

  function ValidatedStart(path: string, history: seq<Migration>): Result<int, HostError> {
    if |history| == 0 then Ok(CURRENT)
    else
      var start := history[0].fromVersion;
      if start < 1 || start >= CURRENT then Err(SchemaMigrationError)
      else if |history| != CURRENT - start then Err(SchemaMigrationError)
      else if exists i :: 0 <= i < |history| && !RowFits(path, start, i, history[i]) then Err(SchemaMigrationError)
      else Ok(start)
  }

  // The history from `start` to `v`, each step once and in order.
  function HistoryFrom(path: string, start: int, v: int): seq<Migration>
    requires start <= v
  {
    seq(v - start, i requires 0 <= i < v - start => HistoryRow(path, i + 1, start + i))
  }

  // The validator accepts exactly the empty history and the complete ones.
  lemma ValidatedStartExact(path: string, history: seq<Migration>, start: int)
    ensures ValidatedStart(path, history) == Ok(start) <==>
            || (start == CURRENT && history == [])
            || (1 <= start < CURRENT && history == HistoryFrom(path, start, CURRENT))
  {
    hide StepName, BackupName;
    if ValidatedStart(path, history) == Ok(start) && history != [] {
      var expected := HistoryFrom(path, start, CURRENT);
      forall i | 0 <= i < |history|
        ensures history[i] == expected[i]
      {
        assert RowFits(path, start, i, history[i]);
      }
    }
    if 1 <= start < CURRENT && history == HistoryFrom(path, start, CURRENT) {
      assert history[0] == HistoryRow(path, 1, start);
    }
  }

  // The SQL text of each object is not compared here.
  predicate CurrentSchema(d: Database) {
    && d.keys == METADATA
    && ValidatedStart(d.path, d.history).Ok?
    && d.shape == CurrentShape()
  }

  // ---- What holds at version v of a database that began at `start` ----

  ghost predicate NoExtensions(events: seq<EventRow>) {
    forall i :: 0 <= i < |events| ==> !events[i].kind.Extension?
  }

  // Everything an event, a legacy row or a pointer names is validated at startup.
  ghost predicate TimingSafe(d: Database) {
    forall g :: g in d.rows.objects && NamedDurably(d, g) ==> d.rows.objects[g].timing == Startup
  }

  ghost predicate RowsInv(d: Database, v: int) {
    && UniqueEvents(d.rows.events)
    && StreamInv(d.rows.events, d.rows.streams, d.rows.projections)
    && CausesPointBack(d.rows.events)
    && (forall i :: 0 <= i < |d.rows.events| ==> d.rows.events[i].payloadDigest in d.rows.objects)
    && (if v < 4 then d.rows.edges == map[]
        else EdgeInv(d.rows.events, d.rows.edges, d.rows.objects, d.rows.boundary))
    && ExtensionInv(d.rows.events, d.rows.extensions, d.rows.objects)
    && LeaseInv(d.rows.leases, d.rows.projections)
    && BoardInv(d.rows.board, d.rows.objects)
    && NewsInv(d.rows.publications, d.rows.editions, d.rows.objects)
    && (v >= 7 ==> TimingSafe(d))
  }

  ghost predicate ShapeFits(d: Database, v: int) {
    && (v == 1 ==> ShapeAt(1) <= d.shape <= ShapeAt(1) + UNOWNED + {SchemaMigrations})
    && (v > 1 ==> d.shape == ShapeAt(v) || (v >= 7 && d.shape == ShapeAt(v) + {TimingIndex}))
    && d.keys == (if v >= 4 then METADATA else {VERSION_KEY})
    && d.timed == (v >= 7)
  }

  // The conditions the steps still ahead look at.
  ghost predicate Passable(d: Database, v: int) {
    && (v == 1 ==> d.unownedRows == 0)
    && (v <= 4 ==> NoExtensions(d.rows.events))
  }

  ghost predicate AtVersion(d: Database, start: int, v: int) {
    && 1 <= start <= v <= CURRENT
    && d.version == v
    && d.history == HistoryFrom(d.path, start, v)
    && ShapeFits(d, v)
    && Passable(d, v)
    && RowsInv(d, v)
  }

  // ---- Each step ----

  // A migrator that reads an old version and commits late changes nothing.
  lemma StaleRollsBack(d: Database, from: int)
    requires from != d.version
    ensures Migrate(d, from).None?
  {
  }

  lemma HistoryGrows(path: string, start: int, v: int)
    requires start <= v
    ensures HistoryFrom(path, start, v + 1) == HistoryFrom(path, start, v) + [HistoryRow(path, v - start + 1, v)]
    ensures |HistoryFrom(path, start, v)| == v - start
    ensures forall i :: 0 <= i < v - start ==> HistoryFrom(path, start, v)[i].toVersion <= v
  {
    hide StepName, BackupName;
    forall i | 0 <= i < v - start
      ensures HistoryFrom(path, start, v)[i].toVersion <= v
    {
      assert HistoryFrom(path, start, v)[i] == HistoryRow(path, i + 1, start + i);
    }
  }

  // Nothing a step creates is there before it.
  lemma NothingInTheWay(d: Database, v: int)
    requires ShapeFits(d, v) && 1 <= v < CURRENT
    ensures Creates(v) * d.shape == {}
    ensures v == 3 ==> BOUNDARY_KEY !in d.keys
    ensures v == 6 ==> !d.timed
    ensures VERSION_KEY in Restructured(d, v).keys && SchemaMigrations in Restructured(d, v).shape
  {
    hide Retimed;
    if v == 1 {
    } else {
      TablesNotYet(v);
    }
  }

  lemma TablesNotYet(v: int)
    requires 1 <= v < CURRENT
    ensures Creates(v) !! ShapeAt(v) + {TimingIndex}
  {
    forall n | n in Creates(v)
      ensures n !in ShapeAt(v) + {TimingIndex}
    {
    }
  }

  lemma StepCommits(d: Database, start: int, v: int)
    requires AtVersion(d, start, v) && v < CURRENT
    ensures !Refuses(d, v)
    ensures Migrate(d, v) == Some(Restructured(d, v).(version := v + 1, history := HistoryFrom(d.path, start, v + 1)))
  {
    hide RowsInv, StepName, BackupName, HistoryFrom, HistoryRow, Retimed, Creates, ShapeAt;
    HistoryGrows(d.path, start, v);
    NothingInTheWay(d, v);
    SameIdentity(d, v);
  }

  lemma SameIdentity(d: Database, v: int)
    ensures var body := Restructured(d, v); body.version == d.version && body.history == d.history && body.path == d.path
  {
    hide Retimed, Creates;
  }

  lemma StepShape(d: Database, v: int)
    requires ShapeFits(d, v) && 1 <= v < CURRENT
    ensures ShapeFits(Restructured(d, v), v + 1)
  {
    hide Retimed;
    var after := Restructured(d, v);
    if v == 1 {
      assert after.shape == ShapeAt(2);
    } else if d.shape == ShapeAt(v) {
      assert after.shape == ShapeAt(v + 1);
    } else {
      assert after.shape == ShapeAt(v + 1) + {TimingIndex};
    }
  }

  lemma RetimedSame(d: Database)
    ensures Retimed(d).Keys == d.rows.objects.Keys
    ensures forall g :: g in d.rows.objects ==> Retimed(d)[g].kind == d.rows.objects[g].kind
    ensures forall g :: g in d.rows.objects ==>
              Retimed(d)[g] == d.rows.objects[g].(timing := Retimed(d)[g].timing)
  {
    hide BoardOnly;
  }

  // After the v6 to v7 step a digest is validated on access exactly when it is a board
  // message's and nothing durable names it.
  lemma TimingAfterSeven(d: Database, g: Digest)
    requires g in d.rows.objects
    ensures var after := Restructured(d, 6);
            && g in after.rows.objects
            && (after.rows.objects[g].timing == OnAccess <==>
                  && d.rows.objects[g].kind == BOARD_OBJECT_KIND
                  && (exists i :: 0 <= i < |d.rows.board| && d.rows.board[i].messageDigest == g)
                  && (forall i :: 0 <= i < |d.rows.events| ==> d.rows.events[i].payloadDigest != g)
                  && (forall e :: e in d.rows.edges ==> g !in d.rows.edges[e])
                  && g !in d.legacy
                  && (forall key :: key in d.rows.extensions ==> d.rows.extensions[key].stateDigest != g))
    ensures NamedDurably(d, g) ==> Restructured(d, 6).rows.objects[g].timing == Startup
  {
  }

  lemma RowsSix(d: Database)
    requires RowsInv(d, 6)
    ensures RowsInv(Restructured(d, 6), 7)
  {
    hide Retimed, StreamInv, UniqueEvents, CausesPointBack, NamedDurably, LeaseInv, Log, Publications;
    RetimedSame(d);
    var after := Restructured(d, 6);
    forall g | g in after.rows.objects && NamedDurably(after, g)
      ensures after.rows.objects[g].timing == Startup
    {
      DurablySame(d, after, g);
      TimingAfterSeven(d, g);
    }
    forall i | 0 <= i < |d.rows.publications|
      ensures PublicationOk(d.rows.publications[i], d.rows.editions, after.rows.objects)
    {
      assert PublicationOk(d.rows.publications[i], d.rows.editions, d.rows.objects);
    }
  }

  lemma DurablySame(d: Database, e: Database, g: Digest)
    requires e.rows == d.rows.(objects := e.rows.objects) && e.legacy == d.legacy
    ensures NamedDurably(d, g) == NamedDurably(e, g)
  {
  }

  // The v3 to v4 boundary lies just past the last event, so every older event is free of
  // the edge rule and every later one is bound by it.
  lemma RowsThree(d: Database)
    requires RowsInv(d, 3)
    ensures RowsInv(Restructured(d, 3), 4)
    ensures var rows := Restructured(d, 3).rows; EdgeInv(rows.events, rows.edges, rows.objects, rows.boundary)
  {
    hide StreamInv, UniqueEvents, CausesPointBack, LeaseInv, ExtensionInv, BoardInv, NewsInv;
  }

  lemma StepRows(d: Database, v: int)
    requires RowsInv(d, v) && 1 <= v < CURRENT
    ensures RowsInv(Restructured(d, v), v + 1)
  {
    if v == 3 {
      RowsThree(d);
    } else if v == 6 {
      RowsSix(d);
    } else {
      RowsUntouched(d, v);
    }
  }

  lemma RowsUntouched(d: Database, v: int)
    requires RowsInv(d, v) && 1 <= v < CURRENT && v != 3 && v != 6
    ensures RowsInv(Restructured(d, v), v + 1)
  {
    hide StreamInv, UniqueEvents, CausesPointBack, LeaseInv, ExtensionInv, BoardInv, NewsInv, EdgeInv;
    var after := Restructured(d, v);
    if v >= 7 {
      forall g | g in after.rows.objects && NamedDurably(after, g)
        ensures after.rows.objects[g].timing == Startup
      {
        DurablySame(d, after, g);
      }
    }
  }

  // Each step, from a database at its version, commits and leaves one at the next.
  lemma StepAdvances(d: Database, start: int, v: int)
    requires AtVersion(d, start, v) && v < CURRENT
    ensures !Refuses(d, v) && Migrate(d, v).Some? && AtVersion(Migrate(d, v).value, start, v + 1)
    ensures Migrate(d, v).value.path == d.path
  {
    hide RowsInv, ShapeFits, Migrate, HistoryFrom, Refuses, Retimed;
    StepCommits(d, start, v);
    StepShape(d, v);
    StepRows(d, v);
    RowsOnly(Restructured(d, v), Migrate(d, v).value, v + 1);
  }

  lemma RowsOnly(d: Database, e: Database, v: int)
    requires RowsInv(d, v) && ShapeFits(d, v) && e.rows == d.rows && e.legacy == d.legacy
    requires e.shape == d.shape && e.keys == d.keys && e.timed == d.timed
    ensures RowsInv(e, v) && ShapeFits(e, v)
  {
    hide StreamInv, UniqueEvents, CausesPointBack, LeaseInv, ExtensionInv, BoardInv, NewsInv, EdgeInv, ShapeAt;
    if v >= 7 {
      forall g | g in e.rows.objects && NamedDurably(e, g)
        ensures e.rows.objects[g].timing == Startup
      {
        DurablySame(d, e, g);
      }
    }
  }

  lemma ScriptCompletes(d: Database, start: int)
    requires AtVersion(d, start, CURRENT)
    ensures AtVersion(RunScript(d), start, CURRENT) && TimingIndex in RunScript(d).shape
    ensures RunScript(d) == d.(shape := CurrentShape())
  {
    hide RowsInv, HistoryFrom;
    assert RunScript(d).shape == CurrentShape();
    assert d.keys + METADATA == METADATA;
    assert RunScript(d) == d.(shape := CurrentShape());
    RowsStay(d, RunScript(d));
  }

  lemma RowsStay(d: Database, e: Database)
    requires RowsInv(d, CURRENT) && e.rows == d.rows && e.legacy == d.legacy
    ensures RowsInv(e, CURRENT)
  {
    hide StreamInv, UniqueEvents, CausesPointBack, LeaseInv, ExtensionInv, BoardInv, NewsInv, EdgeInv;
    forall g | g in e.rows.objects && NamedDurably(e, g)
      ensures e.rows.objects[g].timing == Startup
    {
      DurablySame(d, e, g);
    }
  }

  // At version 8 the validator finds the start, and accepts exactly when the timing index
  // is there.
  lemma ValidAtCurrent(d: Database, start: int)
    requires AtVersion(d, start, CURRENT)
    ensures ValidatedStart(d.path, d.history) == Ok(start)
    ensures CurrentSchema(d) <==> TimingIndex in d.shape
    ensures Inv(d.rows)
  {
    hide StreamInv, UniqueEvents, CausesPointBack, LeaseInv, ExtensionInv, BoardInv, NewsInv, EdgeInv, HistoryFrom, TimingSafe;
    if start == CURRENT {
      HistoryGrows(d.path, start, CURRENT);
    }
    ValidatedStartExact(d.path, d.history, start);
  }

  // ---- Any schedule of migrators ----

  datatype Move = Try(from: int) | Script

  // A migrator's transaction commits whole or not at all; only one that has read version 8
  // runs the script, and no step lowers a version.
  function Step(d: Database, m: Move): Database {
    match m
    case Try(from) =>
      if from < 1 || from >= CURRENT || Refuses(d, from) || Migrate(d, from).None? then d else Migrate(d, from).value
    case Script => if d.version == CURRENT then RunScript(d) else d
  }

  function Run(d: Database, moves: seq<Move>): Database {
    if |moves| == 0 then d else Step(Run(d, moves[..|moves| - 1]), moves[|moves| - 1])
  }

  lemma StepKeepsVersion(d: Database, start: int, m: Move)
    requires AtVersion(d, start, d.version)
    ensures AtVersion(Step(d, m), start, Step(d, m).version) && d.version <= Step(d, m).version && Step(d, m).path == d.path
    ensures m.Try? && TimingIndex !in d.shape ==> TimingIndex !in Step(d, m).shape
  {
    hide AtVersion, Refuses, Migrate, RunScript;
    InRange(d, start);
    match m
    case Try(from) => TryKeepsVersion(d, start, from);
    case Script =>
      if d.version == CURRENT {
        ScriptCompletes(d, start);
      }
  }

  lemma TryKeepsVersion(d: Database, start: int, from: int)
    requires AtVersion(d, start, d.version)
    ensures AtVersion(Step(d, Try(from)), start, Step(d, Try(from)).version)
    ensures d.version <= Step(d, Try(from)).version && Step(d, Try(from)).path == d.path
    ensures TimingIndex !in d.shape ==> TimingIndex !in Step(d, Try(from)).shape
  {
    hide AtVersion, Refuses, Migrate, Restructured, HistoryFrom;
    InRange(d, start);
    if from != d.version {
      StaleRollsBack(d, from);
    } else if d.version < CURRENT {
      StepAdvances(d, start, d.version);
      StepCommits(d, start, d.version);
      IndexNotMade(d, from);
    }
  }

  lemma IndexNotMade(d: Database, from: int)
    ensures TimingIndex in Restructured(d, from).shape ==> TimingIndex in d.shape
  {
    hide Retimed;
  }

  lemma {:induction false} RunKeepsVersion(d: Database, start: int, moves: seq<Move>)
    requires AtVersion(d, start, d.version)
    ensures AtVersion(Run(d, moves), start, Run(d, moves).version)
    ensures d.version <= Run(d, moves).version && Run(d, moves).path == d.path
  {
    hide AtVersion, Step;
    if |moves| > 0 {
      RunKeepsVersion(d, start, moves[..|moves| - 1]);
      StepKeepsVersion(Run(d, moves[..|moves| - 1]), start, moves[|moves| - 1]);
    }
  }

  // A database as an older Host of version `start` left it, which the steps can pass.
  ghost predicate Startable(d: Database, start: int) {
    d.version == start && AtVersion(d, start, start)
  }

  // Theorem: whatever crashes, reopenings and competing migrators do, a database at version
  // 8 has run each step from its start exactly once and in order, its start is recognised,
  // and its rows keep the whole journal invariant.
  lemma MigratedExactly(d: Database, start: int, moves: seq<Move>)
    requires Startable(d, start) && Run(d, moves).version == CURRENT
    ensures var e := Run(d, moves);
            && e.history == HistoryFrom(d.path, start, CURRENT)
            && ValidatedStart(e.path, e.history) == Ok(start)
            && Inv(e.rows)
            && V.OpensCleanly(e.rows)
            && TimingSafe(e)
            && (CurrentSchema(e) <==> TimingIndex in e.shape)
  {
    hide Inv, CurrentSchema, ValidatedStart, HistoryFrom, TimingSafe, V.OpensCleanly;
    RunKeepsVersion(d, start, moves);
    ValidAtCurrent(Run(d, moves), start);
    SafeAtCurrent(Run(d, moves), start);
    V.InvariantOpensCleanly(Run(d, moves).rows);
  }

  lemma SafeAtCurrent(d: Database, start: int)
    requires AtVersion(d, start, CURRENT)
    ensures TimingSafe(d)
  {
  }

  // Without the closing script the timing index never appears: a crash between the commit
  // of the last step and that script leaves a version 8 that no later opening accepts.
  lemma {:induction false} StrandedWithoutScript(d: Database, start: int, moves: seq<Move>)
    requires Startable(d, start) && TimingIndex !in d.shape && Script !in moves
    ensures TimingIndex !in Run(d, moves).shape
    ensures Run(d, moves).version == CURRENT ==> !CurrentSchema(Run(d, moves))
  {
    hide AtVersion, Step, CurrentSchema;
    if |moves| > 0 {
      var init := moves[..|moves| - 1];
      StrandedWithoutScript(d, start, init);
      RunKeepsVersion(d, start, init);
      StepKeepsVersion(Run(d, init), start, moves[|moves| - 1]);
      assert moves[|moves| - 1] in moves;
    }
    RunKeepsVersion(d, start, moves);
    if Run(d, moves).version == CURRENT {
      ValidAtCurrent(Run(d, moves), start);
    }
  }

  // The steps from version v on, in order.
  function StepsFrom(v: int): seq<Move>
    requires v <= CURRENT
  {
    seq(CURRENT - v, i requires 0 <= i < CURRENT - v => Try(v + i))
  }

  // Such a crash can happen: the steps alone reach version 8 from any start.
  lemma {:induction false} StepsReach(d: Database, start: int, n: nat)
    requires Startable(d, start) && start + n <= CURRENT
    ensures var e := Run(d, StepsFrom(start)[..n]);
            e.version == start + n && AtVersion(e, start, start + n)
  {
    hide AtVersion, Migrate, Refuses, Step;
    if n == 0 {
      assert StepsFrom(start)[..0] == [];
    } else {
      var moves := StepsFrom(start)[..n];
      assert moves[..n - 1] == StepsFrom(start)[..n - 1] && moves[n - 1] == Try(start + n - 1);
      StepsReach(d, start, n - 1);
      StartInRange(d, start);
      StepAdvances(Run(d, moves[..n - 1]), start, start + n - 1);
      StepIsMigration(Run(d, moves[..n - 1]), start + n - 1);
    }
  }

  lemma StepIsMigration(d: Database, v: int)
    requires 1 <= v < CURRENT && !Refuses(d, v) && Migrate(d, v).Some?
    ensures Step(d, Try(v)) == Migrate(d, v).value && Migrate(d, v).value.version == v + 1
  {
    hide Refuses, Restructured;
  }

  lemma VersionAfter(d: Database, v: int)
    requires Migrate(d, v).Some?
    ensures Migrate(d, v).value.version == v + 1
  {
    hide Restructured;
  }

  // Theorem: an interrupted upgrade can be opened again, undisturbed, exactly when it has
  // not yet reached version 8 or has its timing index; from a start without the index the
  // other case is reachable.
  lemma CrashCanStrand(d: Database, start: int)
    requires Startable(d, start) && TimingIndex !in d.shape
    ensures exists moves :: Script !in moves && Run(d, moves).version == CURRENT && !CurrentSchema(Run(d, moves))
  {
    hide AtVersion, CurrentSchema, Run;
    StartInRange(d, start);
    var moves := StepsFrom(start);
    assert moves[..CURRENT - start] == moves;
    StepsReach(d, start, CURRENT - start);
    StrandedWithoutScript(d, start, moves);
  }

  lemma StartInRange(d: Database, start: int)
    requires Startable(d, start)
    ensures 1 <= start <= CURRENT
  {
  }

  // ---- initialize_schema ----

  class SchemaConnection {
    var disk: Database
    var others: seq<seq<Move>>

    constructor (disk: Database, others: seq<seq<Move>>)
      ensures this.disk == disk && this.others == others
    {
      this.disk := disk;
      this.others := others;
    }

    // The other migrators' turn.
    method Yield(ghost start: int)
      requires AtVersion(disk, start, disk.version)
      modifies this
      ensures AtVersion(disk, start, disk.version) && old(disk).version <= disk.version
      ensures old(others) == [] ==> disk == old(disk) && others == []
      ensures disk.path == old(disk).path
    {
      hide AtVersion, Step;
      if others == [] {
        return;
      }
      var turn := others[0];
      others := others[1..];
      var i := 0;
      while i < |turn|
        invariant 0 <= i <= |turn|
        invariant AtVersion(disk, start, disk.version) && old(disk).version <= disk.version && disk.path == old(disk).path
      {
        StepKeepsVersion(disk, start, turn[i]);
        disk := Step(disk, turn[i]);
        i := i + 1;
      }
    }

    // One version step: the look before the transaction, then the transaction.
    method MigrateFrom(from: int, ghost start: int) returns (r: Result<(), HostError>)
      requires AtVersion(disk, start, disk.version) && 1 <= from < CURRENT && from <= disk.version
      modifies this
      ensures AtVersion(disk, start, disk.version) && old(disk).version <= disk.version && disk.path == old(disk).path
      ensures r.Ok? ==> from < disk.version
      ensures old(others) == [] ==> others == []
      ensures old(others) == [] && from == old(disk).version ==> r.Ok? && disk.version == from + 1
    {
      hide AtVersion, Refuses, Migrate;
      if from == disk.version {
        StepAdvances(disk, start, from);
      }
      if Refuses(disk, from) {
        return Err(SchemaMigrationError);
      }
      Yield(start);
      if from != disk.version {
        StaleRollsBack(disk, from);
      } else {
        StepAdvances(disk, start, from);
        VersionAfter(disk, from);
      }
      match Migrate(disk, from)
      case None => return Err(SchemaMigrationError);
      case Some(after) =>
        disk := after;
        return Ok(());
    }

    // Open whatever is there: a file without any table becomes a current database at once, one
    // with tables but no metadata is refused, any other is brought up to date.
    method OpenDatabase(ghost start: int) returns (r: Result<(), HostError>)
      requires HostMetadata !in disk.shape ==> Blank(disk) || disk.shape != {}
      requires HostMetadata in disk.shape ==> AtVersion(disk, start, disk.version)
      modifies this
      ensures HostMetadata !in old(disk).shape && old(disk).shape != {} ==>
                r == Err(SchemaMigrationError) && disk == old(disk)
      ensures old(disk).shape == {} ==>
                r == Ok(()) && AtVersion(disk, CURRENT, CURRENT) && CurrentSchema(disk) && disk.rows == EMPTY
      ensures HostMetadata in old(disk).shape ==> AtVersion(disk, start, disk.version)
      ensures HostMetadata in old(disk).shape && old(others) == [] ==>
                (r.Ok? <==> old(disk).version < CURRENT || TimingIndex in old(disk).shape)
      ensures r.Ok? ==> disk.version == CURRENT && CurrentSchema(disk)
    {
      hide AtVersion, CurrentSchema, RunScript, EMPTY;
      if HostMetadata in disk.shape {
        r := InitializeSchema(start);
        return;
      }
      if disk.shape != {} {
        return Err(SchemaMigrationError);
      }
      BlankBecomesCurrent(disk);
      disk := RunScript(disk);
      return Ok(());
    }

    // Open an existing database, one version after another until it is current.
    method InitializeSchema(ghost start: int) returns (r: Result<(), HostError>)
      requires AtVersion(disk, start, disk.version)
      modifies this
      ensures AtVersion(disk, start, disk.version) && old(disk).version <= disk.version
      ensures r.Ok? ==> disk.version == CURRENT && CurrentSchema(disk)
      ensures old(others) == [] ==>
                (r.Ok? <==> old(disk).version < CURRENT || TimingIndex in old(disk).shape)
    {
      hide AtVersion, CurrentSchema, RunScript, Inv, ValidatedStart, CurrentShape;
      InRange(disk, start);
      var migrated := false;
      var version := disk.version;
      while version != CURRENT
        invariant AtVersion(disk, start, disk.version) && 1 <= version <= disk.version <= CURRENT
        invariant old(disk).version <= disk.version
        invariant migrated || (version == old(disk).version && disk == old(disk) && others == old(others))
        invariant old(others) == [] ==> others == [] && version == disk.version
        invariant migrated ==> old(disk).version < CURRENT
        decreases CURRENT - version
      {
        var stepped := MigrateFrom(version, start);
        if stepped.Err? {
          return Err(SchemaMigrationError);
        }
        migrated := true;
        InRange(disk, start);
        Yield(start);
        InRange(disk, start);
        version := disk.version;
      }
      if migrated {
        Yield(start);
        InRange(disk, start);
        ScriptCompletes(disk, start);
        disk := RunScript(disk);
      }
      ValidAtCurrent(disk, start);
      if !CurrentSchema(disk) {
        return Err(SchemaMigrationError);
      }
      return Ok(());
    }
  }

  lemma InRange(d: Database, start: int)
    requires AtVersion(d, start, d.version)
    ensures 1 <= d.version <= CURRENT
  {
  }

  // A file in which nothing was ever created.
  predicate Blank(d: Database) {
    && d.shape == {} && d.keys == {} && d.history == [] && d.legacy == {} && !d.timed
    && d.rows == EMPTY
  }

  lemma BlankBecomesCurrent(d: Database)
    requires Blank(d)
    ensures AtVersion(RunScript(d), CURRENT, CURRENT) && CurrentSchema(RunScript(d)) && RunScript(d).rows == EMPTY
    ensures RunScript(d).version == CURRENT
  {
    hide Inv;
    var e := RunScript(d);
    assert e.shape == CurrentShape() && e.keys == METADATA;
    assert e.history == HistoryFrom(d.path, CURRENT, CURRENT);
    EmptyInv();
    EmptyRows(e);
    ValidAtCurrent(e, CURRENT);
  }

  lemma EmptyRows(d: Database)
    requires d.rows == EMPTY && d.legacy == {}
    ensures RowsInv(d, CURRENT) && Passable(d, CURRENT)
  {
    EmptyInv();
  }

  // The tables that a step makes are not there yet.
  predicate Absent(d: Database, from: int) {
    && (from == 2 ==> ObjectValidation !in d.shape)
    && (from == 3 ==> LegacyObjectRefs !in d.shape && EventObjectRefs !in d.shape && OnePayloadIndex !in d.shape
                      && "event_object_refs_start_sequence" !in d.keys)
    && (from == 4 ==> TaskExtensionState !in d.shape)
    && (from == 5 ==> BoardMessages !in d.shape)
    && (from == 6 ==> !d.timed)
    && (from == 7 ==> NewsEditions !in d.shape && NewsDateIndex !in d.shape && NewsPublications !in d.shape)
  }

  // Theorem: a step commits if and only if it starts at its own version, nothing it makes or
  // records is there, no row of a removed table and no extension event would be lost, and the
  // history has a table or is given one. Otherwise it changes nothing.
  lemma StepsExactly(d: Database, from: int)
    ensures Step(d, Try(from)) != d <==>
              && 1 <= from <= 7 && "schema_version" in d.keys && d.version == from
              && Absent(d, from)
              && (from == 1 || SchemaMigrations in d.shape)
              && (from == 1 ==> d.unownedRows == 0)
              && (from == 4 ==> forall i :: 0 <= i < |d.rows.events| ==> d.rows.events[i].kind.Core?)
              && (forall i :: 0 <= i < |d.history| ==> d.history[i].toVersion != from + 1)
  {
    hide StepName, BackupName, BoardOnly, ShapeAt, Retimed, Absent;
    if 1 <= from <= 7 {
      NothingMeets(d, from);
    }
  }

  lemma NothingMeets(d: Database, from: int)
    requires 1 <= from <= 7
    ensures Creates(from) * d.shape == {} && !(from == 3 && BOUNDARY_KEY in d.keys) && !(from == 6 && d.timed) <==> Absent(d, from)
  {
    assert Creates(from) * d.shape == {} <==> forall n :: n in Creates(from) ==> n !in d.shape by {
      if n :| n in Creates(from) && n in d.shape {
        assert n in Creates(from) * d.shape;
      }
    }
  }

  // What is opened as current: both metadata values, a history that is empty or complete from
  // some start, and every table and index but the removed ones.
  lemma CurrentExactly(d: Database)
    ensures CurrentSchema(d) <==>
              && d.keys == {"schema_version", "event_object_refs_start_sequence"}
              && (d.history == [] || exists start :: 1 <= start < 8 && d.history == HistoryFrom(d.path, start, 8))
              && (forall n: SchemaName :: n in d.shape <==> n !in {Wakeups, RuntimeLinks, TaskEdges, TaskNodes})
  {
    hide HistoryFrom, ValidatedStart;
    if ValidatedStart(d.path, d.history).Ok? {
      ValidatedStartExact(d.path, d.history, ValidatedStart(d.path, d.history).value);
    }
    if d.history == [] {
      ValidatedStartExact(d.path, d.history, CURRENT);
    } else if start :| 1 <= start < 8 && d.history == HistoryFrom(d.path, start, 8) {
      ValidatedStartExact(d.path, d.history, start);
    }
    ShapeIsAll();
    if forall n: SchemaName :: n in d.shape <==> n !in UNOWNED {
      assert d.shape == CurrentShape();
    }
  }

  lemma ShapeIsAll()
    ensures forall n: SchemaName :: n in CurrentShape() <==> n !in {Wakeups, RuntimeLinks, TaskEdges, TaskNodes}
  {
    assert CurrentShape() ==
           {HostMetadata, SchemaMigrations, ObjectRefs, ObjectValidation, Streams, Events, LegacyObjectRefs, EventObjectRefs,
            OnePayloadIndex, TaskProjections, TaskExtensionState, Leases, BoardMessages, NewsEditions, NewsDateIndex,
            NewsPublications, TimingIndex};
    forall n: SchemaName
      ensures n in CurrentShape() <==> n !in {Wakeups, RuntimeLinks, TaskEdges, TaskNodes}
    {
      match n
      case HostMetadata => case SchemaMigrations => case ObjectRefs => case ObjectValidation => case Streams =>
      case Events => case LegacyObjectRefs => case EventObjectRefs => case OnePayloadIndex => case TaskProjections =>
      case TaskExtensionState => case Leases => case BoardMessages => case NewsEditions => case NewsDateIndex =>
      case NewsPublications => case TimingIndex => case Wakeups => case RuntimeLinks => case TaskEdges => case TaskNodes =>
    }
  }

  // Each step has a name of its own.
  lemma StepNamesDiffer(i: int, j: int)
    requires 2 <= i < j <= 8
    ensures StepName(i) != StepName(j)
  {
    assert |StepName(2)| == 28 && |StepName(3)| == 35 && |StepName(4)| == 27;
    assert |StepName(5)| == 35 && |StepName(6)| == 22 && |StepName(7)| == 33 && |StepName(8)| == 25;
    assert StepName(3)[0] == 'c' && StepName(5)[0] == 'p';
  }

  // Theorem: a step that commits starts at its own version, records itself, refuses to drop a
  // row of a removed table or to guess the state of an extension, and loses no row: only the
  // boundary of version 4 and the timing of version 7 are written.
  lemma StepLosesNothing(d: Database, from: int)
    requires Step(d, Try(from)) != d
    ensures var after := Step(d, Try(from));
            && 1 <= from <= 7 && d.version == from && after.version == from + 1
            && after.history == d.history + [Migration(|d.history| + 1, from, from + 1, StepName(from + 1), BackupName(d.path, from + 1))]
            && (from == 1 ==> d.unownedRows == 0)
            && (from == 4 ==> forall i :: 0 <= i < |d.rows.events| ==> d.rows.events[i].kind.Core?)
            && after.shape == (if from == 1 then d.shape + {SchemaMigrations} - UNOWNED else d.shape + Creates(from))
            && after.rows == d.rows.(boundary := after.rows.boundary, objects := after.rows.objects)
            && after.rows.boundary == (if from == 3 then |d.rows.events| + 1 else d.rows.boundary)
            && (from != 6 ==> after.rows.objects == d.rows.objects)
            && (from == 3 ==> after.legacy == d.rows.objects.Keys) && (from != 3 ==> after.legacy == d.legacy)
            && after.rows.objects.Keys == d.rows.objects.Keys
            && forall g :: g in d.rows.objects ==>
                 after.rows.objects[g] == d.rows.objects[g].(timing := after.rows.objects[g].timing)
  {
    hide StepName, BackupName, BoardOnly, ShapeAt;
  }
}
