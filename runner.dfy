/**
 The post phase of the migration run: every registered post-migration, in
 registration order, against one database.
 */
module Runner {
  import opened Schemas
  import opened Store
  import opened Registry
  import DropDiagnosticsUser
  import DropRankColumn

  /** The ledger name a body reads and writes. */
  function BodyName(b: Body): string {
    match b
    case DropDiagnosticsUserBody => DropDiagnosticsUser.Name
    case DropRankColumnBody => DropRankColumn.Name
  }

  /** Every artifact some post-migration may remove. */
  const LegacyArtifacts: set<Artifact> :=
    DropDiagnosticsUser.Targets + {ColumnOf(DropRankColumn.LeaderboardTable, DropRankColumn.RankColumn)}

  /** A schema built only from the current entities holds none of the legacy artifacts. */
  predicate NoLegacy(s: Schema) {
    !HasColumn(s, DropDiagnosticsUser.DiagnosticsTable, DropDiagnosticsUser.UserIdColumn) &&
    !HasConstraint(s, DropDiagnosticsUser.DiagnosticsTable, DropDiagnosticsUser.UserConstraint) &&
    !HasColumn(s, DropRankColumn.LeaderboardTable, DropRankColumn.RankColumn)
  }

  /** No DDL statement was issued after the first |before| calls. */
  ghost predicate NoDdlSince(before: seq<Call>, after: seq<Call>) {
    before <= after && forall i :: |before| <= i < |after| ==> !after[i].Exec?
  }

  /** One descriptor's body run on `w`. */
  function Execute(w: State, m: MigrationFunc, refused: set<Ddl>): (r: State)
    ensures r.ledger == w.ledger + {BodyName(m.body)}
    ensures OnlyRemoves(w.schema, r.schema, LegacyArtifacts)
    ensures BodyName(m.body) in w.ledger ==> r == ReadLedger(w, BodyName(m.body))
    ensures NoLegacy(w.schema) ==> r.schema == w.schema && NoDdlSince(w.calls, r.calls)
  {
    match m.body
    case DropDiagnosticsUserBody => DropDiagnosticsUser.Effect(w, refused)
    case DropRankColumnBody => DropRankColumn.Effect(w, refused)
  }

  /** The names the bodies of `ms` mark as run. */
  function Names(ms: seq<MigrationFunc>): set<string> {
    set m | m in ms :: BodyName(m.body)
  }

  /** The ledger reads `ms` make when every one of them has already run. */
  function LedgerReads(ms: seq<MigrationFunc>): (cs: seq<Call>)
    ensures |cs| == |ms|
    ensures forall i :: 0 <= i < |ms| ==> cs[i] == LedgerRead(BodyName(ms[i].body))
  {
    if ms == [] then [] else LedgerReads(ms[..|ms| - 1]) + [LedgerRead(BodyName(ms[|ms| - 1].body))]
  }

  /** The descriptors of `ms` run one after another, in order. */
  function RunAll(w: State, ms: seq<MigrationFunc>, refused: set<Ddl>): (r: State)
    // every body marks its name, and nothing else enters the ledger
    ensures r.ledger == w.ledger + Names(ms)
    // nothing appears; only legacy artifacts may go
    ensures OnlyRemoves(w.schema, r.schema, LegacyArtifacts)
    // calls are only ever appended
    ensures w.calls <= r.calls
    decreases |ms|
  {
    if ms == [] then w
    else
      var prefix := ms[..|ms| - 1];
      assert ms == prefix + [ms[|ms| - 1]];
      var mid := RunAll(w, prefix, refused);
      var r := Execute(mid, ms[|ms| - 1], refused);
      assert Names(ms) == Names(prefix) + {BodyName(ms[|ms| - 1].body)};
      OnlyRemovesCompose(w.schema, mid.schema, r.schema, LegacyArtifacts, LegacyArtifacts, LegacyArtifacts);
      r
  }

  /** A run in which every body has already been marked only reads the ledger. */
  lemma {:induction false} RunAllWhenDone(w: State, ms: seq<MigrationFunc>, refused: set<Ddl>)
    requires Names(ms) <= w.ledger
    ensures RunAll(w, ms, refused) == w.(calls := w.calls + LedgerReads(ms))
    decreases |ms|
  {
    if ms != [] {
      var prefix := ms[..|ms| - 1];
      assert ms == prefix + [ms[|ms| - 1]];
      assert Names(prefix) <= Names(ms);
      RunAllWhenDone(w, prefix, refused);
      assert BodyName(ms[|ms| - 1].body) in Names(ms);
    }
  }

  /** Running the whole post phase a second time changes neither schema nor ledger. */
  lemma RunTwiceIsNoOp(w: State, ms: seq<MigrationFunc>, refused1: set<Ddl>, refused2: set<Ddl>)
    ensures var r := RunAll(w, ms, refused1);
            RunAll(r, ms, refused2) == r.(calls := r.calls + LedgerReads(ms))
  {
    RunAllWhenDone(RunAll(w, ms, refused1), ms, refused2);
  }

  /**
   On a database created from the current entities, no migration issues DDL,
   the schema is unchanged, and every migration is still marked as run.
   */
  lemma {:induction false} FreshDatabase(w: State, ms: seq<MigrationFunc>, refused: set<Ddl>)
    requires NoLegacy(w.schema)
    ensures var r := RunAll(w, ms, refused);
            r.schema == w.schema && NoDdlSince(w.calls, r.calls) && r.ledger == w.ledger + Names(ms)
    decreases |ms|
  {
    if ms != [] {
      var prefix := ms[..|ms| - 1];
      FreshDatabase(w, prefix, refused);
      var mid := RunAll(w, prefix, refused);
      var r := Execute(mid, ms[|ms| - 1], refused);
      assert RunAll(w, ms, refused) == r;
      forall i | |w.calls| <= i < |r.calls| ensures !r.calls[i].Exec? {
        if i >= |mid.calls| {
          assert NoDdlSince(mid.calls, r.calls);
        } else {
          assert r.calls[i] == mid.calls[i];
        }
      }
    }
  }

  /** Calls the descriptor's body. */
  method Invoke(db: Database, m: MigrationFunc, refused: set<Ddl>) returns (err: Error)
    modifies db
    ensures err == Nil
    ensures db.Snapshot() == Execute(old(db.Snapshot()), m, refused)
  {
    match m.body
    case DropDiagnosticsUserBody =>
      err := DropDiagnosticsUser.Run(db, refused);
    case DropRankColumnBody =>
      err := DropRankColumn.Run(db, refused);
  }

  /**
   Runs the registered post-migrations in order. `ok` says that no body returned
   an error, which is all the run's safety rests on.
   */
  method RunPostMigrations(db: Database, registry: PostMigrations, refused: set<Ddl>) returns (ok: bool)
    modifies db
    ensures ok
    ensures db.Snapshot() == RunAll(old(db.Snapshot()), registry.post, refused)
  {
    var ms := registry.post;
    ok := true;
    var i := 0;
    while i < |ms|
      invariant 0 <= i <= |ms|
      invariant ok
      invariant db.Snapshot() == RunAll(old(db.Snapshot()), ms[..i], refused)
    {
      assert ms[..i + 1][..i] == ms[..i];
      var err := Invoke(db, ms[i], refused);
      ok := ok && err == Nil;
      i := i + 1;
    }
    assert ms[..i] == ms;
  }

  /** The package's registrations: the two `init` functions, in registration order. */
  method InitAll() returns (registry: PostMigrations)
    ensures fresh(registry)
    ensures registry.post == [DropDiagnosticsUser.Migration, DropRankColumn.Migration]
  {
    registry := new PostMigrations();
    DropDiagnosticsUser.Init(registry);
    DropRankColumn.Init(registry);
  }

  /** Every registered descriptor's name is the name its body marks, and the names differ. */
  lemma RegisteredNames()
    ensures DropDiagnosticsUser.Migration.name == BodyName(DropDiagnosticsUser.Migration.body)
    ensures DropRankColumn.Migration.name == BodyName(DropRankColumn.Migration.body)
    ensures DropDiagnosticsUser.Migration.name != DropRankColumn.Migration.name
  {
  }

  /**
   The two registered post-migrations on a fresh database: both guards are false,
   no DDL is issued, the schema is unchanged and the ledger holds both names.
   */
  lemma FreshDatabaseBothMigrations(w: State, refused: set<Ddl>)
    requires NoLegacy(w.schema)
    ensures var r := RunAll(w, [DropDiagnosticsUser.Migration, DropRankColumn.Migration], refused);
            r.schema == w.schema && NoDdlSince(w.calls, r.calls) &&
            r.ledger == w.ledger + {DropDiagnosticsUser.Name, DropRankColumn.Name}
  {
    var ms := [DropDiagnosticsUser.Migration, DropRankColumn.Migration];
    FreshDatabase(w, ms, refused);
    assert Names(ms) == {DropDiagnosticsUser.Name, DropRankColumn.Name} by {
      assert ms[0] in ms && ms[1] in ms;
    }
  }
}
