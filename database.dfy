/**
  The part of the database that the bundle lifecycle changes: which schemas
  exist, and the rows of the shared web_categories table. The effect of a
  statement on it is given by Step, the effect of a whole sequence of
  statements by Run.
 */
module Database {
  import opened Catalog

  /** A row of web_categories, tagged with the bundle it belongs to. */
  datatype Category = Category(id: string, bundle: string)

  datatype Db = Db(schemas: set<string>, categories: seq<Category>)

  /**
    Whether the server carries out statement s in state db. `accepts` is the
    server's verdict on everything this model does not see (privileges, the
    SQL of the scripts, a broken connection); on top of it CREATE SCHEMA
    fails on a schema that exists and DROP SCHEMA, which has no IF EXISTS,
    fails on one that does not.
   */
  function Accepted(db: Db, s: Statement, accepts: Statement -> bool): (ok: bool)
    ensures ok ==> accepts(s)
    ensures s.CreateSchema? && s.name in db.schemas ==> !ok
    ensures s.DropSchema? && s.name !in db.schemas ==> !ok
    ensures !s.CreateSchema? && !s.DropSchema? ==> (ok <==> accepts(s))
  {
    accepts(s) &&
    match s
    case CreateSchema(n) => n !in db.schemas
    case DropSchema(n) => n in db.schemas
    case _ => true
  }

  /** The rows left after deleting those of bundle n. */
  function WithoutBundle(rows: seq<Category>, n: string): (r: seq<Category>)
    ensures forall c :: c in r <==> c in rows && c.bundle != n
    ensures multiset(r) <= multiset(rows)
    ensures forall c :: multiset(r)[c] == if c.bundle == n then 0 else multiset(rows)[c]
    ensures (forall c :: c in rows ==> c.bundle != n) ==> r == rows
    decreases |rows|
  {
    if rows == [] then []
    else
      assert rows == [rows[0]] + rows[1..];
      if rows[0].bundle == n then WithoutBundle(rows[1..], n)
    else [rows[0]] + WithoutBundle(rows[1..], n)
  }

  /** The state after the server is sent s: unchanged when s is refused. */
  function Step(db: Db, s: Statement, accepts: Statement -> bool): (r: Db)
    ensures !Accepted(db, s, accepts) ==> r == db
    ensures Accepted(db, s, accepts) && s.CreateSchema? ==> s.name !in db.schemas && s.name in r.schemas
    ensures Accepted(db, s, accepts) && s.DropSchema? ==> s.name in db.schemas && s.name !in r.schemas
    ensures Accepted(db, s, accepts) && s.DeleteCategories? ==>
              (forall c :: c in r.categories <==> c in db.categories && c.bundle != s.name)
              && multiset(r.categories) <= multiset(db.categories)
              && (forall c :: multiset(r.categories)[c] == if c.bundle == s.name then 0 else multiset(db.categories)[c])
    ensures !Mutates(s) ==> r == db
    ensures s.CreateSchema? || s.DropSchema? ==>
              r.categories == db.categories && r.schemas - {s.name} == db.schemas - {s.name}
    ensures s.DeleteCategories? ==> r.schemas == db.schemas
  {
    if !Accepted(db, s, accepts) then db
    else match s
      case CreateSchema(n) => db.(schemas := db.schemas + {n})
      case DropSchema(n) => db.(schemas := db.schemas - {n})
      case DeleteCategories(n) => db.(categories := WithoutBundle(db.categories, n))
      case _ => db
  }

  /** The state after the statements of t are sent one after the other. */
  function Run(db: Db, t: seq<Statement>, accepts: Statement -> bool): (r: Db)
    ensures (forall s :: s in t ==> !s.CreateSchema? && !s.DropSchema?) ==> r.schemas == db.schemas
    ensures (forall s :: s in t ==> !s.DeleteCategories?) ==> r.categories == db.categories
    decreases |t|
  {
    if t == [] then db else Run(Step(db, t[0], accepts), t[1..], accepts)
  }

  /** Sending t1 and then t2 is sending t1 + t2. */
  lemma {:induction false} RunAppend(db: Db, t1: seq<Statement>, t2: seq<Statement>, accepts: Statement -> bool)
    ensures Run(db, t1 + t2, accepts) == Run(Run(db, t1, accepts), t2, accepts)
    decreases |t1|
  {
    if t1 == [] {
      assert t1 + t2 == t2;
    } else {
      assert (t1 + t2)[1..] == t1[1..] + t2;
      RunAppend(Step(db, t1[0], accepts), t1[1..], t2, accepts);
    }
  }

  /** The server's verdict on a statement that changes nothing never shows in the state. */
  lemma {:induction false} RunIgnoresNonMutating(db: Db, t: seq<Statement>, a1: Statement -> bool, a2: Statement -> bool)
    requires forall s :: Mutates(s) ==> a1(s) == a2(s)
    ensures Run(db, t, a1) == Run(db, t, a2)
    decreases |t|
  {
    if t != [] {
      assert Step(db, t[0], a1) == Step(db, t[0], a2);
      RunIgnoresNonMutating(Step(db, t[0], a1), t[1..], a1, a2);
    }
  }
}
