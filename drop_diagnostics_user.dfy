/**
 Migration "202203191-drop_diagnostics_user": removes the legacy `user_id` column
 of the diagnostics table and its foreign-key constraint `fk_diagnostics_user`.
 */
module DropDiagnosticsUser {
  import opened Schemas
  import opened Store
  import opened Registry

  const Name := "202203191-drop_diagnostics_user"
  /** The table of `models.Diagnostics` under gorm's default naming. */
  const DiagnosticsTable := "diagnostics"
  const UserIdColumn := "user_id"
  const UserConstraint := "fk_diagnostics_user"

  const DropUserConstraint := DropConstraintStmt(DiagnosticsTable, UserConstraint)
  const DropUserIdColumn := DropColumnStmt(DiagnosticsTable, UserIdColumn)

  /** The descriptor `init` registers. */
  const Migration := MigrationFunc(Name, DropDiagnosticsUserBody)

  /** The artifacts this migration may remove. */
  const Targets: set<Artifact> := {ConstraintOf(DiagnosticsTable, UserConstraint), ColumnOf(DiagnosticsTable, UserIdColumn)}

  /** The state after one run of the body, given the statements the database refuses. */
  function Effect(w: State, refused: set<Ddl>): (r: State)
    // already run: one ledger read, nothing else touched
    ensures Name in w.ledger ==> r == ReadLedger(w, Name)
    // marked as run after every run, whatever the drops did
    ensures r.ledger == w.ledger + {Name}
    // nothing appears; only the constraint and the column may go
    ensures OnlyRemoves(w.schema, r.schema, Targets)
    // guard false: the column is checked, no DDL is issued, the schema stays
    ensures Name !in w.ledger && !HasColumn(w.schema, DiagnosticsTable, UserIdColumn) ==>
              r.schema == w.schema &&
              r.calls == w.calls + [LedgerRead(Name), ColumnQuery(DiagnosticsTable, UserIdColumn), LedgerWrite(Name)]
    // guard true: the constraint drop is attempted before the column drop, both always
    ensures Name !in w.ledger && HasColumn(w.schema, DiagnosticsTable, UserIdColumn) ==>
              r.calls == w.calls + [LedgerRead(Name), ColumnQuery(DiagnosticsTable, UserIdColumn),
                                    Exec(DropUserConstraint), Exec(DropUserIdColumn), LedgerWrite(Name)]
    // a failed constraint drop does not keep the column from being dropped
    ensures Name !in w.ledger && HasColumn(w.schema, DiagnosticsTable, UserIdColumn) ==>
              (!HasColumn(r.schema, DiagnosticsTable, UserIdColumn) <==> DropUserIdColumn !in refused)
    ensures Name !in w.ledger && HasConstraint(w.schema, DiagnosticsTable, UserConstraint) &&
            HasColumn(w.schema, DiagnosticsTable, UserIdColumn) ==>
              (!HasConstraint(r.schema, DiagnosticsTable, UserConstraint) <==> DropUserConstraint !in refused)
    // both drops refused: the schema is exactly as before
    ensures DropUserConstraint in refused && DropUserIdColumn in refused ==> r.schema == w.schema
  {
    var w1 := ReadLedger(w, Name);
    if Name in w.ledger then w1
    else
      var w2 := QueryColumn(w1, DiagnosticsTable, UserIdColumn);
      var w3 :=
        if HasColumn(w.schema, DiagnosticsTable, UserIdColumn)
        then ExecDdl(ExecDdl(w2, DropUserConstraint, refused), DropUserIdColumn, refused)
        else w2;
      WriteLedger(w3, Name)
  }

  /** The body `f`; `cfg` is unused and left out. */
  method Run(db: Database, refused: set<Ddl>) returns (err: Error)
    modifies db
    ensures err == Nil
    ensures db.Snapshot() == Effect(old(db.Snapshot()), refused)
  {
    var done := db.HasRun(Name);
    if done {
      return Nil;
    }
    var present := db.HasColumn(DiagnosticsTable, UserIdColumn);
    if present {
      // each failure is only logged as a warning
      var constraintErr := db.DropConstraint(DiagnosticsTable, UserConstraint, refused);
      var columnErr := db.DropColumn(DiagnosticsTable, UserIdColumn, refused);
    }
    db.SetHasRun(Name);
    return Nil;
  }

  /** `init`: registers the body as a post-migration. */
  method Init(registry: PostMigrations)
    modifies registry
    ensures registry.post == old(registry.post) + [Migration]
  {
    registry.RegisterPostMigration(Migration);
  }

  /** A second run right after the first only reads the ledger. */
  lemma SecondRunIsNoOp(w: State, refused1: set<Ddl>, refused2: set<Ddl>)
    ensures var r := Effect(w, refused1); Effect(r, refused2) == ReadLedger(r, Name)
  {
  }

  /**
   The constraint is already gone but the column is there: the constraint drop
   is issued and fails, the column is still dropped, and the migration is marked.
   */
  lemma ConstraintAlreadyGone(w: State, refused: set<Ddl>)
    requires Name !in w.ledger && DropUserIdColumn !in refused
    requires HasColumn(w.schema, DiagnosticsTable, UserIdColumn)
    requires !HasConstraint(w.schema, DiagnosticsTable, UserConstraint)
    ensures Outcome(w.schema, DropUserConstraint, refused) == DdlFailed(DropUserConstraint)
    ensures var r := Effect(w, refused);
            r.schema == WithoutColumn(w.schema, DiagnosticsTable, UserIdColumn) && Name in r.ledger
  {
  }
}
