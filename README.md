# wakapi run-once schema migrations, modelled in Dafny

wakapi's `migrations` package holds hand-written schema changes that gorm's
additive auto-migration cannot make. This project models the two post-phase
migrations in it:

- `202203191-drop_diagnostics_user` drops the foreign-key constraint
  `fk_diagnostics_user` and the legacy `user_id` column of the diagnostics table.
- `20221016-drop_rank_column` drops the legacy `rank` column of the
  leaderboard-item table.

Each body does four things in order:

1. It returns early when the ledger already records its name (`hasRun`).
2. It checks that the legacy artifact is there (`HasColumn`, or `HasTable && HasColumn`).
3. If so, it attempts its drops. A failed drop is only a warning.
4. It always marks its name in the ledger (`setHasRun`) and returns `nil`.

Each `init` appends the migration's descriptor to the post-migration registry.

Layout, one module per file:

- `schemas.dfy` (`Schemas`): the abstract schema. It is a map from table names
  to their column and constraint names. It also has the artifact view
  (`Has`, `OnlyRemoves`) and the two removals.
- `store.dfy` (`Store`): the database a body receives.
  - Class `Database` holds the ledger (`set<string>`), the schema, and a ghost
    trace of the calls made on it, in order.
  - Each of its methods is proved against a pure step function on `State`.
  - A statement succeeds exactly when the database does not refuse it (the
    parameter `refused`) and its target exists.
- `registry.dfy` (`Registry`): the descriptor `migrationFunc` and the
  post-migration list that `registerPostMigration` appends to.
- `drop_diagnostics_user.dfy`, `drop_rank_column.dfy`: each body as a method
  `Run` on a `Database`, its `init` as `Init`, and a pure function `Effect`.
  `Run` is proved equal to `Effect`. The contract of `Effect` states the
  migration's promises.
- `runner.dfy` (`Runner`): the post-migrations run in registration order, and
  the properties that span several migrations or several runs.

Whether a DDL statement is refused is the parameter `refused`. This stands
for dialect behaviour and for concurrent instances, which the code does not
decide.

The table names are assumed constants, `DropDiagnosticsUser.DiagnosticsTable`
(`diagnostics`) and `DropRankColumn.LeaderboardTable` (`leaderboard_items`).
They follow gorm's default naming. The types `models.Diagnostics` and
`models.LeaderboardItem` are not part of this model.

A run of a migration ends in one of four ways:
- it is skipped because the ledger already holds its name;
- its guard is false and it changes nothing;
- its drops are applied;
- it is applied with warnings because some drop failed.

The code does not report which. A body returns a Go `error`, and that error is
always `nil`. The model keeps the code's `error` (`Store.Error`). Which of the
four happened can be read off the call trace and the schema; no member of the
model computes it.

## Model

| member | source | states |
|---|---|---|
| Schemas.WithoutColumn | migrations/202203191_drop_diagnostics_user.go:28 | dropping a column removes exactly that column; every other table, column and constraint stays |
| Schemas.WithoutConstraint | migrations/202203191_drop_diagnostics_user.go:24 | dropping a constraint removes exactly that constraint; everything else stays |
| Schemas.ArtifactsDetermineSchema | migrations/202203191_drop_diagnostics_user.go:21-31 | two schemas with the same tables, columns and constraints are equal, so "only these artifacts change" pins down the whole schema |
| Schemas.OnlyRemovesCompose | migrations/202203191_drop_diagnostics_user.go:24-28 | successive steps that each only remove allowed artifacts together only remove allowed artifacts |
| Store.Dropped | migrations/20221016_drop_rank_column.go:24 | a successful drop removes exactly its target |
| Store.OutcomeReportsChange | migrations/202203191_drop_diagnostics_user.go:24-30 | the error a drop returns is nil exactly when the drop changed the schema |
| Store.ExecDdl | migrations/20221016_drop_rank_column.go:24-26 | a drop leaves the ledger alone, records one statement, and either removes exactly its target or leaves the schema exactly as it was |
| Store.Database.constructor | main.go:167-169 | a database starts with the given ledger and schema and no calls |
| Store.Database.HasRun | migrations/202203191_drop_diagnostics_user.go:15 | `hasRun` is ledger membership; it changes neither ledger nor schema |
| Store.Database.SetHasRun | migrations/202203191_drop_diagnostics_user.go:33 | `setHasRun` inserts the name into the ledger and changes nothing else |
| Store.Database.HasTable | migrations/20221016_drop_rank_column.go:21 | `HasTable` reads whether the table exists and changes nothing |
| Store.Database.HasColumn | migrations/202203191_drop_diagnostics_user.go:21 | `HasColumn` reads whether the table exists with that column and changes nothing |
| Store.Database.DropConstraint | migrations/202203191_drop_diagnostics_user.go:24 | `DropConstraint` returns its error and makes the state change that `ExecDdl` describes |
| Store.Database.DropColumn | migrations/202203191_drop_diagnostics_user.go:28 | `DropColumn` returns its error and makes the state change that `ExecDdl` describes |
| Registry.PostMigrations.constructor | migrations/202203191_drop_diagnostics_user.go:38 | the post-migration registry starts empty |
| Registry.PostMigrations.RegisterPostMigration | migrations/202203191_drop_diagnostics_user.go:38 | registration appends exactly one descriptor and keeps the earlier ones in order |
| DropDiagnosticsUser.Effect | migrations/202203191_drop_diagnostics_user.go:14-35 | if already run, only the ledger is read and nothing changes; the ledger always ends with the name; only the constraint and `user_id` may disappear; without `user_id` no DDL is issued and the schema stays; with `user_id`, the constraint drop comes before the column drop; the column goes exactly when its drop is not refused, whatever the constraint drop did |
| DropDiagnosticsUser.Run | migrations/202203191_drop_diagnostics_user.go:14-35 | the body always returns nil, and its new state is `Effect` of the old one |
| DropDiagnosticsUser.Init | migrations/202203191_drop_diagnostics_user.go:10-13 | `init` appends exactly one descriptor, with this name, to the registry |
| DropDiagnosticsUser.SecondRunIsNoOp | migrations/202203191_drop_diagnostics_user.go:15-17 | a second run right after the first only reads the ledger, whatever either run's drops do |
| DropDiagnosticsUser.ConstraintAlreadyGone | migrations/202203191_drop_diagnostics_user.go:24-33 | with `user_id` present and the constraint already removed, the constraint drop fails, the column is still dropped, nothing else changes, and the name is marked |
| DropRankColumn.Effect | migrations/20221016_drop_rank_column.go:14-31 | if already run, only the ledger is read and nothing changes; the ledger always ends with the name; only `rank` may disappear; the column is queried only when the table exists; with the guard false, no DDL is issued and the schema stays; with the guard true, `rank` goes exactly when its drop is not refused; a refused drop leaves the schema exactly as it was |
| DropRankColumn.Run | migrations/20221016_drop_rank_column.go:14-31 | the body always returns nil, and its new state is `Effect` of the old one |
| DropRankColumn.Init | migrations/20221016_drop_rank_column.go:10-13 | `init` appends exactly one descriptor, with this name, to the registry |
| DropRankColumn.SecondRunIsNoOp | migrations/20221016_drop_rank_column.go:15-17 | a second run right after the first only reads the ledger |
| DropRankColumn.OldSchemaLosesRank | migrations/20221016_drop_rank_column.go:21-29 | on a schema with `rank`, a run that is not refused removes exactly `rank` and marks the name |
| DropRankColumn.ConcurrentInstances | migrations/20221016_drop_rank_column.go:15-29 | two instances that both pass the ledger and the guard: the first drop succeeds, the second fails because the column is gone, both mark the ledger, and `rank` is removed once |
| Runner.Execute | migrations/202203191_drop_diagnostics_user.go:14-35 | any registered body marks its own name, only removes legacy artifacts, only reads the ledger when already run, and on a schema without legacy artifacts issues no DDL and changes nothing |
| Runner.LedgerReads | migrations/20221016_drop_rank_column.go:15-17 | one ledger read per descriptor, in registry order |
| Runner.RunAll | migrations/20221016_drop_rank_column.go:29 | running the descriptors in order adds exactly their names to the ledger, only removes legacy artifacts, and only appends calls |
| Runner.RunAllWhenDone | migrations/202203191_drop_diagnostics_user.go:15-17 | when every name is already in the ledger, a whole run only reads the ledger |
| Runner.RunTwiceIsNoOp | migrations/20221016_drop_rank_column.go:15-29 | a second run of the post phase changes neither schema nor ledger and only reads the ledger |
| Runner.FreshDatabase | migrations/202203191_drop_diagnostics_user.go:21-33 | on a schema without the legacy artifacts, no DDL is issued, the schema is unchanged, and every name is still marked |
| Runner.FreshDatabaseBothMigrations | migrations/20221016_drop_rank_column.go:21-29 | the two registered migrations on a fresh database: no DDL, the schema stays, and the ledger gains both names |
| Runner.Invoke | migrations/202203191_drop_diagnostics_user.go:12-14 | calling a descriptor's body returns nil and has that body's effect |
| Runner.RunPostMigrations | main.go:167-169 | the post phase runs every registered body in registration order; no body returns an error; the new state is `RunAll` of the old one |
| Runner.InitAll | migrations/20221016_drop_rank_column.go:10-13 | the two `init`s leave the registry holding the diagnostics descriptor, then the rank descriptor |
| Runner.RegisteredNames | migrations/20221016_drop_rank_column.go:11-13 | each registered descriptor carries the name its body uses in the ledger, and the two names differ |

## Left out

- The bodies of `hasRun`, `setHasRun`, `registerPostMigration` and
  `migrations.Run` live in other files of the package. Those files are not
  part of this model, so the four operations are modelled abstractly.
  - The ledger is modelled as a set of names with an unconditional insertion.
  - The registry is modelled as an appended sequence.
  - The run is modelled as executing the post-migrations in registration order.
  - A failed ledger write, the ledger row's timestamp, and the behaviour of
    `Run` when a body returns an error are not modelled.
- Pre-phase migrations and gorm's auto-migration between the phases are left
  out. No modelled file registers a pre-migration, and the sync step is
  external.
- The call site skips the whole run when `SkipMigrations` is set. That
  switch is not modelled.
- The internals of gorm's `Migrator` and dialect effects are left out. For
  example, a column drop that also removes dependent constraints is not
  modelled. A drop either removes exactly its target or fails.
- Logging through `logbuch` is left out. It is I/O. The ghost call trace
  stands in for the order of what a body does.
- The unused `cfg` parameter is left out.
- Go package `init` order depends on file layout. The model states the
  registration order as given by `Runner.InitAll` and proves nothing about
  the link order.
- Races between concurrently starting instances are left out as a
  concurrency model. `DropRankColumn.ConcurrentInstances` covers one fixed
  interleaving.
