/**
 The database as a migration body uses it: the ledger of migrations already run,
 the schema seen through gorm's Migrator, and the order in which a body calls them.
 */
module Store {
  import opened Schemas

  /** A DDL statement a migration body may issue. */
  datatype Ddl =
    | DropConstraintStmt(table: string, constraint: string)
    | DropColumnStmt(table: string, column: string)

  /** What a Go function returns as `error`: nil, or the failure of one statement. */
  datatype Error = Nil | DdlFailed(statement: Ddl)

  /** One call a migration body makes on the database. */
  datatype Call =
    | LedgerRead(name: string)
    | LedgerWrite(name: string)
    | TableQuery(table: string)
    | ColumnQuery(table: string, column: string)
    | Exec(statement: Ddl)

  /**
   What the migrations can observe and change: the ledger (names marked as run),
   the schema, and the calls made so far.
   */
  datatype State = State(ledger: set<string>, schema: Schema, calls: seq<Call>)

  /** The artifact a statement removes. */
  function Target(d: Ddl): Artifact {
    match d
    case DropConstraintStmt(t, n) => ConstraintOf(t, n)
    case DropColumnStmt(t, c) => ColumnOf(t, c)
  }

  /**
   A drop succeeds when the database does not refuse it (`refused` stands for the
   dialect and the concurrent instances, which the model does not see) and its
   target exists; dropping an absent artifact fails.
   */
  predicate Succeeds(s: Schema, d: Ddl, refused: set<Ddl>) {
    d !in refused && Has(s, Target(d))
  }

  /** The schema after a successful statement. */
  function Dropped(s: Schema, d: Ddl): (r: Schema)
    ensures forall a :: Has(r, a) <==> Has(s, a) && a != Target(d)
  {
    match d
    case DropConstraintStmt(t, n) => WithoutConstraint(s, t, n)
    case DropColumnStmt(t, c) => WithoutColumn(s, t, c)
  }

  /** The error a statement returns. */
  function Outcome(s: Schema, d: Ddl, refused: set<Ddl>): Error {
    if Succeeds(s, d, refused) then Nil else DdlFailed(d)
  }

  /** `hasRun`: a read of the ledger. */
  function ReadLedger(w: State, name: string): State {
    w.(calls := w.calls + [LedgerRead(name)])
  }

  /** `setHasRun`: the name is added to the ledger. */
  function WriteLedger(w: State, name: string): State {
    w.(ledger := w.ledger + {name}, calls := w.calls + [LedgerWrite(name)])
  }

  /** `Migrator.HasTable`: a read of the schema. */
  function QueryTable(w: State, t: string): State {
    w.(calls := w.calls + [TableQuery(t)])
  }

  /** `Migrator.HasColumn`: a read of the schema. */
  function QueryColumn(w: State, t: string, c: string): State {
    w.(calls := w.calls + [ColumnQuery(t, c)])
  }

  /**
   `Migrator.DropConstraint` / `Migrator.DropColumn`: either exactly the target
   disappears, or the statement fails and the schema stays as it was.
   */
  function ExecDdl(w: State, d: Ddl, refused: set<Ddl>): (r: State)
    ensures r.ledger == w.ledger && r.calls == w.calls + [Exec(d)]
    ensures Succeeds(w.schema, d, refused) ==>
              forall a :: Has(r.schema, a) <==> Has(w.schema, a) && a != Target(d)
    ensures !Succeeds(w.schema, d, refused) ==> r.schema == w.schema
  {
    w.(schema := if Succeeds(w.schema, d, refused) then Dropped(w.schema, d) else w.schema,
       calls := w.calls + [Exec(d)])
  }

  /**
   The error a drop returns tells the caller whether the drop changed the schema:
   nil exactly when the schema afterwards differs from the schema before.
   */
  lemma OutcomeReportsChange(w: State, d: Ddl, refused: set<Ddl>)
    ensures Outcome(w.schema, d, refused) == Nil <==> ExecDdl(w, d, refused).schema != w.schema
  {
  }

  /** The shared database a migration body receives as `db`. */
  class Database {
    var ledger: set<string>
    var schema: Schema
    ghost var calls: seq<Call>

    ghost function Snapshot(): State
      reads this
    {
      State(ledger, schema, calls)
    }

    constructor (ledger0: set<string>, schema0: Schema)
      ensures Snapshot() == State(ledger0, schema0, [])
    {
      ledger, schema, calls := ledger0, schema0, [];
    }

    /** `hasRun(name, db)` */
    method HasRun(name: string) returns (b: bool)
      modifies this`calls
      ensures b == (name in ledger)
      ensures Snapshot() == ReadLedger(old(Snapshot()), name)
    {
      b := name in ledger;
      calls := calls + [LedgerRead(name)];
    }

    /** `setHasRun(name, db)` */
    method SetHasRun(name: string)
      modifies this`ledger, this`calls
      ensures Snapshot() == WriteLedger(old(Snapshot()), name)
    {
      ledger := ledger + {name};
      calls := calls + [LedgerWrite(name)];
    }

    /** `db.Migrator().HasTable(model)` */
    method HasTable(t: string) returns (b: bool)
      modifies this`calls
      ensures b == Schemas.HasTable(schema, t)
      ensures Snapshot() == QueryTable(old(Snapshot()), t)
    {
      b := t in schema;
      calls := calls + [TableQuery(t)];
    }

    /** `db.Migrator().HasColumn(model, column)` */
    method HasColumn(t: string, c: string) returns (b: bool)
      modifies this`calls
      ensures b == Schemas.HasColumn(schema, t, c)
      ensures Snapshot() == QueryColumn(old(Snapshot()), t, c)
    {
      b := t in schema && c in schema[t].columns;
      calls := calls + [ColumnQuery(t, c)];
    }

    /** `db.Migrator().DropConstraint(model, name)` */
    method DropConstraint(t: string, n: string, refused: set<Ddl>) returns (err: Error)
      modifies this`schema, this`calls
      ensures err == Outcome(old(schema), DropConstraintStmt(t, n), refused)
      ensures Snapshot() == ExecDdl(old(Snapshot()), DropConstraintStmt(t, n), refused)
    {
      var d := DropConstraintStmt(t, n);
      if d !in refused && t in schema && n in schema[t].constraints {
        schema := WithoutConstraint(schema, t, n);
        err := Nil;
      } else {
        err := DdlFailed(d);
      }
      calls := calls + [Exec(d)];
    }

    /** `db.Migrator().DropColumn(model, column)` */
    method DropColumn(t: string, c: string, refused: set<Ddl>) returns (err: Error)
      modifies this`schema, this`calls
      ensures err == Outcome(old(schema), DropColumnStmt(t, c), refused)
      ensures Snapshot() == ExecDdl(old(Snapshot()), DropColumnStmt(t, c), refused)
    {
      var d := DropColumnStmt(t, c);
      if d !in refused && t in schema && c in schema[t].columns {
        schema := WithoutColumn(schema, t, c);
        err := Nil;
      } else {
        err := DdlFailed(d);
      }
      calls := calls + [Exec(d)];
    }
  }
}
