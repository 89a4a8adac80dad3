/**
 The post-phase registry: the migrations that run after the additive schema sync,
 in the order they registered themselves.
 */
module Registry {

  /** Which body a descriptor carries; the bodies are methods, so they are named here. */
  datatype Body = DropDiagnosticsUserBody | DropRankColumnBody

  /** `migrationFunc{name, f}` */
  datatype MigrationFunc = MigrationFunc(name: string, body: Body)

  /** The package-level list that `registerPostMigration` appends to. */
  class PostMigrations {
    var post: seq<MigrationFunc>

    constructor ()
      ensures post == []
    {
      post := [];
    }

    /** `registerPostMigration(f)`: no sorting and no deduplication. */
    method RegisterPostMigration(m: MigrationFunc)
      modifies this
      ensures post == old(post) + [m]
    {
      post := post + [m];
    }
  }
}
