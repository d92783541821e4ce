/**
  Whole command runs against a fresh installation, proved from the commands'
  contracts alone.
 */
module Scenarios {
  import opened Catalog
  import opened Database
  import opened Install
  import Ledger

  /** Every verdict favourable: the bundle directory and install.sql are there, the operator says yes. */
  function Smooth(accepts: Statement -> bool): Env
  {
    Env(true, true, false, true, true, true, accepts)
  }

  /** A bundle whose install.sql is valid is listed and has its schema; uninstalling it undoes both. */
  method ShopLifecycle() returns (listedAfterInstall: seq<string>, schemaAfterInstall: bool,
                                  listedAfterUninstall: seq<string>, schemaAfterUninstall: bool)
    ensures listedAfterInstall == ["shop"] && schemaAfterInstall
    ensures listedAfterUninstall == [] && !schemaAfterUninstall
  {
    var site := new Installation({}, [], []);
    var env := Smooth(s => true);
    var installed := site.InstallBundle(["shop"], false, false, env);
    ScriptSuccessKeepsSchema("shop", Db({}, []), env, false);
    listedAfterInstall, schemaAfterInstall := site.bundlesInstalled, "shop" in site.schemas;
    var removed := site.UnInstallBundle(["shop"], env);
    listedAfterUninstall, schemaAfterUninstall := site.bundlesInstalled, "shop" in site.schemas;
  }

  /** A bundle whose install.sql fails is listed all the same, but its schema is rolled back. */
  method BrokenInstall() returns (listed: seq<string>, schemaExists: bool, issued: seq<Statement>)
    ensures listed == ["broken"] && !schemaExists
    ensures issued == [CreateSchema("broken"), GrantAdmin("broken"), SetSearchPath("broken"),
                       RunInstallScript, DropSchema("broken")]
  {
    var site := new Installation({}, [], []);
    var env := Smooth(s => s != RunInstallScript);
    var out := site.InstallBundle(["broken"], false, false, env);
    RollbackRestores("broken", Db({}, []), env, false);
    listed, schemaExists, issued := site.bundlesInstalled, "broken" in site.schemas, out.issued;
  }

  /** Installing twice without reinstall: the second CREATE SCHEMA fails and nothing more is sent. */
  method InstallTwice() returns (second: Outcome, listed: seq<string>)
    ensures second == Completed([CreateSchema("shop")])
    ensures listed == ["shop"]
  {
    var site := new Installation({}, [], []);
    var env := Smooth(s => true);
    var first := site.InstallBundle(["shop"], false, false, env);
    ScriptSuccessKeepsSchema("shop", Db({}, []), env, false);
    second := site.InstallBundle(["shop"], false, false, env);
    listed := site.bundlesInstalled;
  }

  /** Declining the prompt leaves the schemas and the list as they were. */
  method DeclinedUninstall() returns (out: Outcome, listed: seq<string>, schemaExists: bool)
    ensures out == Completed([]) && listed == ["shop"] && schemaExists
  {
    var site := new Installation({"shop"}, [], ["shop"]);
    var env := Smooth(s => true).(confirmed := false);
    out := site.UnInstallBundle(["shop"], env);
    listed, schemaExists := site.bundlesInstalled, "shop" in site.schemas;
  }

  /** Reinstalling an installed bundle drops and recreates its schema and keeps it listed once. */
  method ReinstallInstalled() returns (out: Outcome, listed: seq<string>, schemaExists: bool)
    ensures out == Completed([DeleteCategories("shop"), DropSchema("shop"), CreateSchema("shop"),
                              GrantAdmin("shop"), SetSearchPath("shop"), RunInstallScript])
    ensures listed == ["shop"] && schemaExists
  {
    var site := new Installation({"shop"}, [Category("news", "shop")], ["shop"]);
    var env := Smooth(s => true);
    ghost var removal := [DeleteCategories("shop"), DropSchema("shop")];
    ghost var phase := [CreateSchema("shop"), GrantAdmin("shop"), SetSearchPath("shop"), RunInstallScript];
    assert Run(site.Snapshot(), removal, env.accepts) == Db({}, []) by {
      assert WithoutBundle([Category("news", "shop")], "shop") == [];
      assert Step(site.Snapshot(), removal[0], env.accepts) == Db({"shop"}, []);
      assert removal[1..] == [DropSchema("shop")];
    }
    assert SqlPhase("shop", {}, env, false) == phase;
    assert removal + phase == [DeleteCategories("shop"), DropSchema("shop"), CreateSchema("shop"),
                               GrantAdmin("shop"), SetSearchPath("shop"), RunInstallScript];
    assert Ledger.Remove(["shop"], "shop") == [];
    out := site.InstallBundle(["shop"], false, true, env);
    ScriptSuccessKeepsSchema("shop", Db({}, []), env, false);
    listed, schemaExists := site.bundlesInstalled, "shop" in site.schemas;
  }

  /**
    A reinstall whose nested uninstall rewrites config.json but whose own
    rewrite fails: config.json no longer lists the bundle, while the list in
    memory and the database say it is installed.
   */
  method ReinstallLosesConfigEntry() returns (saved: seq<string>, listed: seq<string>, schemaExists: bool)
    ensures saved == [] && listed == ["shop"] && schemaExists
  {
    var site := new Installation({"shop"}, [], ["shop"]);
    var env := Smooth(s => true).(configWritable := false);
    assert Run(site.Snapshot(), [DeleteCategories("shop"), DropSchema("shop")], env.accepts) == Db({}, []) by {
      assert WithoutBundle([], "shop") == [];
      assert Step(site.Snapshot(), DeleteCategories("shop"), env.accepts) == Db({"shop"}, []);
      assert [DeleteCategories("shop"), DropSchema("shop")][1..] == [DropSchema("shop")];
    }
    assert Ledger.Remove(["shop"], "shop") == [];
    var out := site.InstallBundle(["shop"], false, true, env);
    ScriptSuccessKeepsSchema("shop", Db({}, []), env, false);
    saved, listed, schemaExists := site.configFile, site.bundlesInstalled, "shop" in site.schemas;
  }
}
