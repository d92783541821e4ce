/**
  The install and uninstall commands for bundles. The environment the
  commands consult (the file system, the operator's answer, the database
  server's verdicts, whether config.json can be written) is an input, Env;
  the state they change (schemas, web categories, the installed-bundles list
  in memory and in config.json, and the statements sent so far) is an
  Installation object.
 */
module Install {
  import opened Catalog
  import opened Database
  import Ledger

  datatype Env = Env(
    dirExists: bool,            // ./bundles/<name> is a directory
    installSqlReadable: bool,   // ./bundles/<name>/install.sql can be read
    demoSqlReadable: bool,      // ./bundles/<name>/demodata.sql can be read
    confirmed: bool,            // the operator's answer to the uninstall prompt
    configWritable: bool,       // the command's own rewrite of config.json succeeds
    nestedConfigWritable: bool, // with --reinstall, the nested uninstall's rewrite of config.json succeeds
    accepts: Statement -> bool) // the server's verdict on each statement

  /** What a command returns: an argument error, the process exit of log.Fatal, or completion. */
  datatype Outcome =
    | ArgError
    | Fatal
    | Completed(issued: seq<Statement>)  // the statements sent to the server, in order

  /** Whether the server creates schema n, given the schemas that exist. */
  predicate Creates(n: string, schemas: set<string>, env: Env)
  {
    env.installSqlReadable && n !in schemas && env.accepts(CreateSchema(n))
  }

  /**
    The statements the SQL phase of an install of bundle n sends, when the
    schemas in `schemas` exist as it starts.
   */
  function SqlPhase(n: string, schemas: set<string>, env: Env, demoData: bool): (r: seq<Statement>)
    // without install.sql nothing is sent
    ensures r == [] <==> !env.installSqlReadable
    ensures env.installSqlReadable ==> r[0] == CreateSchema(n)
    // a refused CREATE SCHEMA ends the phase
    ensures !Creates(n, schemas, env) ==> |r| <= 1
    ensures Creates(n, schemas, env) ==> |r| >= 4 && r[..3] == [CreateSchema(n), GrantAdmin(n), SetSearchPath(n)]
    ensures RunInstallScript in r <==> Creates(n, schemas, env) && env.accepts(SetSearchPath(n))
    // the rollback: a refused search path or script drops the schema, as the last statement
    ensures DropSchema(n) in r <==>
              Creates(n, schemas, env) && !(env.accepts(SetSearchPath(n)) && env.accepts(RunInstallScript))
    ensures DropSchema(n) in r ==> n !in schemas && r[|r| - 1] == DropSchema(n)
    // demo data only on top of a complete install, and only when asked for and readable
    ensures RunDemoScript in r <==>
              Creates(n, schemas, env) && env.accepts(SetSearchPath(n)) && env.accepts(RunInstallScript)
              && demoData && env.demoSqlReadable
    // none of the statements touches the web categories or another bundle's schema
    ensures forall s :: s in r ==> !s.DeleteCategories? && (s.CreateSchema? || s.DropSchema? ==> s.name == n)
  {
    if !env.installSqlReadable then []
    else if !Creates(n, schemas, env) then [CreateSchema(n)]
    else [CreateSchema(n)] + SchemaSetup(n, env, demoData)
  }

  /** The statements that follow a successful CREATE SCHEMA for n. */
  function SchemaSetup(n: string, env: Env, demoData: bool): (r: seq<Statement>)
  {
    if !env.accepts(SetSearchPath(n)) then
      [GrantAdmin(n), SetSearchPath(n), DropSchema(n)]
    else if !env.accepts(RunInstallScript) then
      [GrantAdmin(n), SetSearchPath(n), RunInstallScript, DropSchema(n)]
    else if demoData && env.demoSqlReadable then
      [GrantAdmin(n), SetSearchPath(n), RunInstallScript, RunDemoScript]
    else
      [GrantAdmin(n), SetSearchPath(n), RunInstallScript]
  }

  /** The SQL phase of bundle n sends at most five statements, each one of the install's own statements for n. */
  lemma SqlPhaseStatements(n: string, schemas: set<string>, env: Env, demoData: bool)
    ensures |SqlPhase(n, schemas, env, demoData)| <= 5
    ensures forall s :: s in SqlPhase(n, schemas, env, demoData) ==> InstallsBundle(s, n)
    // demo data runs last, right after the install script
    ensures var r := SqlPhase(n, schemas, env, demoData);
            RunDemoScript in r ==> |r| == 5 && r[3] == RunInstallScript && r[4] == RunDemoScript
  {
  }

  /** env1 and env2 differ at most in the verdict on granting admin privileges on n. */
  ghost predicate DifferOnlyInGrant(env1: Env, env2: Env, n: string)
  {
    env1.installSqlReadable == env2.installSqlReadable &&
    env1.demoSqlReadable == env2.demoSqlReadable &&
    forall s :: s != GrantAdmin(n) ==> env1.accepts(s) == env2.accepts(s)
  }

  /** Whether the privilege grant succeeds changes neither what is sent nor the resulting state. */
  lemma GrantVerdictIrrelevant(n: string, db: Db, env1: Env, env2: Env, demoData: bool)
    requires DifferOnlyInGrant(env1, env2, n)
    ensures SqlPhase(n, db.schemas, env1, demoData) == SqlPhase(n, db.schemas, env2, demoData)
    ensures Run(db, SqlPhase(n, db.schemas, env1, demoData), env1.accepts)
         == Run(db, SqlPhase(n, db.schemas, env2, demoData), env2.accepts)
  {
    RunIgnoresNonMutating(db, SqlPhase(n, db.schemas, env1, demoData), env1.accepts, env2.accepts);
  }

  /** A schema that existed before the install is still there after it, and nothing else changed. */
  lemma ExistingSchemaSurvives(n: string, db: Db, env: Env, demoData: bool)
    requires n in db.schemas
    ensures Run(db, SqlPhase(n, db.schemas, env, demoData), env.accepts) == db
  {
  }

  /** A rolled-back schema setup, started just after CREATE SCHEMA n, removes schema n and nothing else. */
  lemma SetupRollbackDropsSchema(n: string, created: Db, env: Env, demoData: bool)
    requires DropSchema(n) in SchemaSetup(n, env, demoData)
    requires n in created.schemas && env.accepts(DropSchema(n))
    ensures Run(created, SchemaSetup(n, env, demoData), env.accepts) == created.(schemas := created.schemas - {n})
  {
    var rest := SchemaSetup(n, env, demoData);
    var between := rest[..|rest| - 1];
    assert rest == between + [DropSchema(n)];
    RunAppend(created, between, [DropSchema(n)], env.accepts);
    assert forall s :: s in between ==> !Mutates(s);
    var mid := Run(created, between, env.accepts);
    assert mid == created;
    assert Run(mid, [DropSchema(n)], env.accepts) == Run(Step(mid, DropSchema(n), env.accepts), [], env.accepts);
  }

  /**
    After a rollback whose DROP SCHEMA goes through, the database is as it was
    before the install: the schema created in this run is gone.
   */
  lemma RollbackRestores(n: string, db: Db, env: Env, demoData: bool)
    requires DropSchema(n) in SqlPhase(n, db.schemas, env, demoData)
    requires env.accepts(DropSchema(n))
    ensures Run(db, SqlPhase(n, db.schemas, env, demoData), env.accepts) == db
    ensures n !in Run(db, SqlPhase(n, db.schemas, env, demoData), env.accepts).schemas
  {
    var created := Step(db, CreateSchema(n), env.accepts);
    assert created == db.(schemas := db.schemas + {n});
    RunAppend(db, [CreateSchema(n)], SchemaSetup(n, env, demoData), env.accepts);
    SetupRollbackDropsSchema(n, created, env, demoData);
    assert created.(schemas := created.schemas - {n}) == db;
  }

  /** A successful install script leaves the bundle's schema in place. */
  lemma ScriptSuccessKeepsSchema(n: string, db: Db, env: Env, demoData: bool)
    requires RunInstallScript in SqlPhase(n, db.schemas, env, demoData)
    requires env.accepts(RunInstallScript)
    ensures Run(db, SqlPhase(n, db.schemas, env, demoData), env.accepts)
         == db.(schemas := db.schemas + {n})
  {
  }

  /**
    One installation: its database, its installed-bundles list (as held in
    memory by the configuration and as last written to config.json) and the
    statements sent to its database so far.
   */
  class Installation {
    var schemas: set<string>
    var categories: seq<Category>
    var bundlesInstalled: seq<string>   // the configuration's "bundlesInstalled" in memory
    var configFile: seq<string>         // "bundlesInstalled" as config.json holds it
    var trace: seq<Statement>           // every statement sent, oldest first

    function Snapshot(): Db
      reads this
    {
      Db(schemas, categories)
    }

    constructor (existing: set<string>, rows: seq<Category>, installed: seq<string>)
      ensures schemas == existing && categories == rows
      ensures bundlesInstalled == installed && configFile == installed
      ensures trace == []
    {
      schemas, categories := existing, rows;
      bundlesInstalled, configFile := installed, installed;
      trace := [];
    }

    /**
      Sends s to the server (one db.Exec); ok is false when the server refuses
      it. The ghost parameters let a caller keep track of what it has sent
      since the state was `start`.
     */
    method Send(s: Statement, env: Env, ghost start: Db, ghost before: seq<Statement>,
                ghost sent: seq<Statement>, ghost next: seq<Statement>)
      returns (ok: bool)
      requires Snapshot() == Run(start, sent, env.accepts) && trace == before + sent
      requires next == sent + [s]
      modifies this
      ensures ok == Accepted(old(Snapshot()), s, env.accepts)
      ensures Snapshot() == Step(old(Snapshot()), s, env.accepts) && trace == old(trace) + [s]
      ensures Snapshot() == Run(start, next, env.accepts) && trace == before + next
      ensures bundlesInstalled == old(bundlesInstalled) && configFile == old(configFile)
    {
      ok := Accepted(Snapshot(), s, env.accepts);
      var after := Step(Snapshot(), s, env.accepts);
      schemas, categories := after.schemas, after.categories;
      trace := trace + [s];
      RunAppend(start, sent, [s], env.accepts);
      assert Run(old(Snapshot()), [s], env.accepts) == Snapshot();
      assert trace == before + next;
    }

    /**
      Sets the in-memory list to l and rewrites config.json from it; a failed
      write leaves config.json as it was, and is only logged.
     */
    method SaveLedger(l: seq<string>, env: Env)
      modifies this
      ensures bundlesInstalled == l
      ensures configFile == if env.configWritable then l else old(configFile)
      ensures Snapshot() == old(Snapshot()) && trace == old(trace)
    {
      bundlesInstalled := l;
      if env.configWritable {
        configFile := l;
      }
    }

    /**
      The uninstall command. Without a name it fails; a declined prompt makes
      it a no-op. Otherwise it deletes the bundle's web categories and drops
      its schema, whatever the server answers, and then takes the bundle off
      the list.
     */
    method UnInstallBundle(args: seq<string>, env: Env) returns (out: Outcome)
      modifies this
      ensures |args| == 0 ==> out == ArgError && unchanged(this)
      ensures |args| > 0 && !env.confirmed ==> out == Completed([]) && unchanged(this)
      ensures |args| > 0 && env.confirmed ==>
                out == Completed([DeleteCategories(args[0]), DropSchema(args[0])])
                && trace == old(trace) + out.issued
                && Snapshot() == Run(old(Snapshot()), out.issued, env.accepts)
                && (env.accepts(DeleteCategories(args[0])) ==> forall c :: c in categories ==> c.bundle != args[0])
                && (env.accepts(DropSchema(args[0])) ==> args[0] !in schemas)
                && bundlesInstalled == Ledger.Remove(old(bundlesInstalled), args[0])
                && configFile == (if env.configWritable then bundlesInstalled else old(configFile))
    {
      if |args| < 1 {
        return ArgError;
      }
      var n := args[0];
      if env.confirmed {
        ghost var db0, t0 := Snapshot(), trace;
        assert trace == t0 + [];
        var _ := Send(DeleteCategories(n), env, db0, t0, [], [DeleteCategories(n)]);
        var _ := Send(DropSchema(n), env, db0, t0, [DeleteCategories(n)], [DeleteCategories(n), DropSchema(n)]);
        SaveLedger(Ledger.Remove(bundlesInstalled, n), env);
        out := Completed([DeleteCategories(n), DropSchema(n)]);
      } else {
        out := Completed([]);
      }
    }

    /** The SQL phase of an install of bundle n: the statements of SqlPhase, sent in order. */
    method InstallSql(n: string, env: Env, demoData: bool) returns (issued: seq<Statement>)
      modifies this
      ensures issued == SqlPhase(n, old(schemas), env, demoData)
      ensures trace == old(trace) + issued
      ensures Snapshot() == Run(old(Snapshot()), SqlPhase(n, old(schemas), env, demoData), env.accepts)
      ensures bundlesInstalled == old(bundlesInstalled) && configFile == old(configFile)
    {
      ghost var db0, t0 := Snapshot(), trace;
      issued := [];
      if env.installSqlReadable {
        assert trace == t0 + [];
        var created := Send(CreateSchema(n), env, db0, t0, [], [CreateSchema(n)]);
        issued := [CreateSchema(n)];
        if created {
          var rest := SetUpSchema(n, env, demoData);
          RunAppend(db0, [CreateSchema(n)], rest, env.accepts);
          issued := issued + rest;
        }
      }
    }

    /**
      The statements after a successful CREATE SCHEMA: grant, search path,
      install script and demo data, with the schema dropped again when the
      search path or the script is refused.
     */
    method SetUpSchema(n: string, env: Env, demoData: bool) returns (issued: seq<Statement>)
      modifies this
      ensures issued == SchemaSetup(n, env, demoData)
      ensures trace == old(trace) + issued
      ensures Snapshot() == Run(old(Snapshot()), SchemaSetup(n, env, demoData), env.accepts)
      ensures bundlesInstalled == old(bundlesInstalled) && configFile == old(configFile)
    {
      ghost var db0, t0 := Snapshot(), trace;
      assert trace == t0 + [];
      // the grant's result is overwritten by the search path's before anyone looks at it
      var ok := Send(GrantAdmin(n), env, db0, t0, [], [GrantAdmin(n)]);
      issued := [GrantAdmin(n)];
      ok := Send(SetSearchPath(n), env, db0, t0, issued, [GrantAdmin(n), SetSearchPath(n)]);
      issued := [GrantAdmin(n), SetSearchPath(n)];
      if !ok {
        var _ := Send(DropSchema(n), env, db0, t0, issued, [GrantAdmin(n), SetSearchPath(n), DropSchema(n)]);
        issued := [GrantAdmin(n), SetSearchPath(n), DropSchema(n)];
      } else {
        ok := Send(RunInstallScript, env, db0, t0, issued, [GrantAdmin(n), SetSearchPath(n), RunInstallScript]);
        issued := [GrantAdmin(n), SetSearchPath(n), RunInstallScript];
        if !ok {
          var _ := Send(DropSchema(n), env, db0, t0, issued, issued + [DropSchema(n)]);
          issued := issued + [DropSchema(n)];
        } else if demoData && env.demoSqlReadable {
          var _ := Send(RunDemoScript, env, db0, t0, issued, issued + [RunDemoScript]);
          issued := issued + [RunDemoScript];
        }
      }
    }

    /**
      The install command. Without a name it fails; a missing bundle
      directory ends the process before anything is done. Otherwise it
      uninstalls first when asked to reinstall, runs the SQL phase, and adds
      the bundle to the list whatever the SQL phase did.
     */
    method InstallBundle(args: seq<string>, demoData: bool, reinstall: bool, env: Env) returns (out: Outcome)
      modifies this
      ensures |args| == 0 ==> out == ArgError && unchanged(this)
      ensures |args| > 0 && !env.dirExists ==> out == Fatal && unchanged(this)
      ensures |args| > 0 && env.dirExists ==>
                var n := args[0];
                var removal := if reinstall && env.confirmed then [DeleteCategories(n), DropSchema(n)] else [];
                var removed := Run(old(Snapshot()), removal, env.accepts);
                var listed := if reinstall && env.confirmed then Ledger.Remove(old(bundlesInstalled), n)
                              else old(bundlesInstalled);
                var saved := if reinstall && env.confirmed && env.nestedConfigWritable then listed else old(configFile);
                out == Completed(removal + SqlPhase(n, removed.schemas, env, demoData))
                && trace == old(trace) + removal + SqlPhase(n, removed.schemas, env, demoData)
                && Snapshot() == Run(removed, SqlPhase(n, removed.schemas, env, demoData), env.accepts)
                && bundlesInstalled == Ledger.Add(listed, n)
                && configFile == (if env.configWritable then bundlesInstalled else saved)
    {
      if |args| < 1 {
        return ArgError;
      }
      if !env.dirExists {
        return Fatal;
      }
      var issued := InstallFound(args, demoData, reinstall, env);
      out := Completed(issued);
    }

    /** The install command once the bundle's directory is known to exist. */
    method InstallFound(args: seq<string>, demoData: bool, reinstall: bool, env: Env) returns (issued: seq<Statement>)
      requires |args| > 0
      modifies this
      ensures var n := args[0];
              var removal := if reinstall && env.confirmed then [DeleteCategories(n), DropSchema(n)] else [];
              var removed := Run(old(Snapshot()), removal, env.accepts);
              var listed := if reinstall && env.confirmed then Ledger.Remove(old(bundlesInstalled), n)
                            else old(bundlesInstalled);
              var saved := if reinstall && env.confirmed && env.nestedConfigWritable then listed else old(configFile);
              issued == removal + SqlPhase(n, removed.schemas, env, demoData)
              && trace == old(trace) + removal + SqlPhase(n, removed.schemas, env, demoData)
              && Snapshot() == Run(removed, SqlPhase(n, removed.schemas, env, demoData), env.accepts)
              && bundlesInstalled == Ledger.Add(listed, n)
              && configFile == (if env.configWritable then bundlesInstalled else saved)
    {
      var n := args[0];
      ghost var db0, t0, l0, c0 := Snapshot(), trace, bundlesInstalled, configFile;
      var removal := [];
      if reinstall {
        // the nested uninstall writes config.json itself, and that write can fail on its own
        var uninstalled := UnInstallBundle(args, env.(configWritable := env.nestedConfigWritable));
        removal := uninstalled.issued;
      }
      assert removal == if reinstall && env.confirmed then [DeleteCategories(n), DropSchema(n)] else [];
      assert Snapshot() == Run(db0, removal, env.accepts);
      assert trace == t0 + removal;
      assert bundlesInstalled == if reinstall && env.confirmed then Ledger.Remove(l0, n) else l0;
      assert configFile == if reinstall && env.confirmed && env.nestedConfigWritable then Ledger.Remove(l0, n) else c0;
      var phase := InstallSql(n, env, demoData);
      SaveLedger(Ledger.Add(bundlesInstalled, n), env);
      issued := removal + phase;
    }
  }
}
