/**
 Migration "20221016-drop_rank_column": removes the legacy `rank` column of the
 leaderboard-item table.
 */
module DropRankColumn {
  import opened Schemas
  import opened Store
  import opened Registry

  const Name := "20221016-drop_rank_column"
  /** The table of `models.LeaderboardItem` under gorm's default naming. */
  const LeaderboardTable := "leaderboard_items"
  const RankColumn := "rank"

  const DropRank := DropColumnStmt(LeaderboardTable, RankColumn)

  /** The descriptor `init` registers. */
  const Migration := MigrationFunc(Name, DropRankColumnBody)

  /** The guard's calls: the column is only asked about when the table exists. */
  function GuardCalls(s: Schema): seq<Call> {
    [TableQuery(LeaderboardTable)] +
    (if HasTable(s, LeaderboardTable) then [ColumnQuery(LeaderboardTable, RankColumn)] else [])
  }

  /** The state after one run of the body, given the statements the database refuses. */
  function Effect(w: State, refused: set<Ddl>): (r: State)
    // already run: one ledger read, nothing else touched
    ensures Name in w.ledger ==> r == ReadLedger(w, Name)
    // marked as run after every run
    ensures r.ledger == w.ledger + {Name}
    // nothing appears; only the rank column may go
    ensures OnlyRemoves(w.schema, r.schema, {ColumnOf(LeaderboardTable, RankColumn)})
    // guard false (no table, or no column): no DDL, the schema stays
    ensures Name !in w.ledger && !HasColumn(w.schema, LeaderboardTable, RankColumn) ==>
              r.schema == w.schema &&
              r.calls == w.calls + [LedgerRead(Name)] + GuardCalls(w.schema) + [LedgerWrite(Name)]
    // guard true: one drop, and the column is gone exactly when it is not refused
    ensures Name !in w.ledger && HasColumn(w.schema, LeaderboardTable, RankColumn) ==>
              r.calls == w.calls + [LedgerRead(Name)] + GuardCalls(w.schema) + [Exec(DropRank), LedgerWrite(Name)] &&
              (!HasColumn(r.schema, LeaderboardTable, RankColumn) <==> DropRank !in refused)
    // a refused drop leaves the schema exactly as before
    ensures DropRank in refused ==> r.schema == w.schema
  {
    var w1 := ReadLedger(w, Name);
    if Name in w.ledger then w1
    else
      var w2 := QueryTable(w1, LeaderboardTable);
      var w3 :=
        if HasTable(w.schema, LeaderboardTable) then QueryColumn(w2, LeaderboardTable, RankColumn) else w2;
      var w4 :=
        if HasTable(w.schema, LeaderboardTable) && HasColumn(w.schema, LeaderboardTable, RankColumn)
        then ExecDdl(w3, DropRank, refused)
        else w3;
      WriteLedger(w4, Name)
  }

  /** The body `f`; `cfg` is unused and left out. */
  method Run(db: Database, refused: set<Ddl>) returns (err: Error)
    modifies db
    ensures err == Nil
    ensures db.Snapshot() == Effect(old(db.Snapshot()), refused)
  {
    var done := db.HasRun(Name);
    if done {
      return Nil;
    }
    var tablePresent := db.HasTable(LeaderboardTable);
    var guard := false;
    if tablePresent {
      guard := db.HasColumn(LeaderboardTable, RankColumn);
    }
    if guard {
      // a failure is only logged as a warning
      var columnErr := db.DropColumn(LeaderboardTable, RankColumn, refused);
    }
    db.SetHasRun(Name);
    return Nil;
  }

  /** `init`: registers the body as a post-migration. */
  method Init(registry: PostMigrations)
    modifies registry
    ensures registry.post == old(registry.post) + [Migration]
  {
    registry.RegisterPostMigration(Migration);
  }

  /** A second run right after the first only reads the ledger. */
  lemma SecondRunIsNoOp(w: State, refused1: set<Ddl>, refused2: set<Ddl>)
    ensures var r := Effect(w, refused1); Effect(r, refused2) == ReadLedger(r, Name)
  {
  }

  /**
   A database created from an old schema with the `rank` column: one run drops
   exactly that column and marks the migration; nothing else of the schema changes.
   */
  lemma OldSchemaLosesRank(w: State, refused: set<Ddl>)
    requires Name !in w.ledger && DropRank !in refused
    requires HasColumn(w.schema, LeaderboardTable, RankColumn)
    ensures var r := Effect(w, refused);
            r.schema == WithoutColumn(w.schema, LeaderboardTable, RankColumn) && Name in r.ledger
  {
  }

  /**
   Two instances start on one database holding the column: both read the ledger
   and pass the guard before either drops. The first drop succeeds, the second
   fails because the column is gone, both mark the ledger, and the column has
   been removed once. The steps are those of `Effect` on this state for the
   path where the ledger does not hold the name and the guard holds: a ledger
   read, `QueryTable`, `QueryColumn`, `ExecDdl` of `DropRank`, then `WriteLedger`.
   Here the two instances' steps are interleaved: both reads, then both guards,
   then both drops, then both writes.
   */
  lemma ConcurrentInstances(w: State, refused: set<Ddl>)
    requires Name !in w.ledger && DropRank !in refused
    requires HasColumn(w.schema, LeaderboardTable, RankColumn)
    ensures
      var seen := ReadLedger(ReadLedger(w, Name), Name);
      var guarded := QueryColumn(QueryTable(QueryColumn(QueryTable(seen, LeaderboardTable), LeaderboardTable, RankColumn),
                                            LeaderboardTable), LeaderboardTable, RankColumn);
      var first := ExecDdl(guarded, DropRank, refused);
      var second := ExecDdl(first, DropRank, refused);
      var marked := WriteLedger(WriteLedger(second, Name), Name);
      Outcome(guarded.schema, DropRank, refused) == Nil &&
      Outcome(first.schema, DropRank, refused) == DdlFailed(DropRank) &&
      marked.schema == WithoutColumn(w.schema, LeaderboardTable, RankColumn) &&
      marked.ledger == w.ledger + {Name}
  {
  }
}
