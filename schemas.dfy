/**
 The abstract relational schema the migrations inspect and change: which tables
 exist, which columns each table has and which named constraints it carries.
 */
module Schemas {

  /** A table as the migrations see it: its column names and its constraint names. */
  datatype Table = Table(columns: set<string>, constraints: set<string>)

  /** A schema maps each existing table name to its table. */
  type Schema = map<string, Table>

  /** One thing a schema may or may not contain. */
  datatype Artifact =
    | TableOf(table: string)
    | ColumnOf(table: string, column: string)
    | ConstraintOf(table: string, constraint: string)

  predicate HasTable(s: Schema, t: string) {
    t in s
  }

  /** A column of a table that does not exist is not there either. */
  predicate HasColumn(s: Schema, t: string, c: string) {
    t in s && c in s[t].columns
  }

  predicate HasConstraint(s: Schema, t: string, n: string) {
    t in s && n in s[t].constraints
  }

  predicate Has(s: Schema, a: Artifact) {
    match a
    case TableOf(t) => HasTable(s, t)
    case ColumnOf(t, c) => HasColumn(s, t, c)
    case ConstraintOf(t, n) => HasConstraint(s, t, n)
  }

  /** Going from `before` to `after` adds nothing, and only artifacts in `targets` may disappear. */
  ghost predicate OnlyRemoves(before: Schema, after: Schema, targets: set<Artifact>) {
    (forall a :: Has(after, a) ==> Has(before, a)) &&
    (forall a :: a !in targets ==> (Has(after, a) <==> Has(before, a)))
  }

  /** The schema with column `c` of table `t` gone and everything else kept. */
  function WithoutColumn(s: Schema, t: string, c: string): (r: Schema)
    ensures forall a :: Has(r, a) <==> Has(s, a) && a != ColumnOf(t, c)
  {
    if t in s then s[t := s[t].(columns := s[t].columns - {c})] else s
  }

  /** The schema with constraint `n` of table `t` gone and everything else kept. */
  function WithoutConstraint(s: Schema, t: string, n: string): (r: Schema)
    ensures forall a :: Has(r, a) <==> Has(s, a) && a != ConstraintOf(t, n)
  {
    if t in s then s[t := s[t].(constraints := s[t].constraints - {n})] else s
  }

  /**
   Two schemas with the same artifacts are the same schema, so a statement about
   artifacts (such as OnlyRemoves) leaves no part of a schema unconstrained.
   */
  lemma {:induction false} ArtifactsDetermineSchema(s: Schema, r: Schema)
    requires forall a :: Has(s, a) <==> Has(r, a)
    ensures s == r
  {
    forall t ensures t in s <==> t in r {
      assert Has(s, TableOf(t)) <==> Has(r, TableOf(t));
    }
    forall t | t in s ensures s[t] == r[t] {
      forall c ensures c in s[t].columns <==> c in r[t].columns {
        assert Has(s, ColumnOf(t, c)) <==> Has(r, ColumnOf(t, c));
      }
      forall n ensures n in s[t].constraints <==> n in r[t].constraints {
        assert Has(s, ConstraintOf(t, n)) <==> Has(r, ConstraintOf(t, n));
      }
    }
  }

  /** Removals compose: two steps together remove at most what either may remove. */
  lemma OnlyRemovesCompose(a: Schema, b: Schema, c: Schema, t1: set<Artifact>, t2: set<Artifact>, t: set<Artifact>)
    requires OnlyRemoves(a, b, t1) && OnlyRemoves(b, c, t2)
    requires t1 + t2 <= t
    ensures OnlyRemoves(a, c, t)
  {
  }
}
