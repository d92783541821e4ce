# Bundle install and uninstall, modelled in Dafny

This project models the two commands of the EcoSystem command-line tool that
provision and remove a *bundle*: a named unit of database schema, admin
privileges and optional seed data. The bundle's name is also the name of its
schema.

- **install `<bundle>`** checks that a name was given and that
  `./bundles/<bundle>` exists (otherwise the process ends with `log.Fatal`),
  optionally uninstalls first (`--reinstall`), then runs the SQL phase:
  `CREATE SCHEMA`, the admin grant, `SET search_path`, the bundle's
  `install.sql` and, with `--demodata`, its `demodata.sql`. A refused search
  path or a failing `install.sql` drops the schema again. Whatever the SQL
  phase did, the bundle is then added to the installed-bundles list and
  `config.json` is rewritten.
- **uninstall `<bundle>`** asks for confirmation; when confirmed it deletes the
  bundle's web categories, drops its schema, and takes the bundle off the list,
  whatever the server answered to the two statements.

Modules:

- `Catalog` (`catalog.dfy`): the bundle statements as a datatype, one
  constructor per statement template, parameterised by the bundle name.
- `Database` (`database.dfy`): the part of the database the commands change
  (which schemas exist, the web category rows tagged with their bundle), what
  one statement does to it (`Step`) and what a sequence of statements does
  (`Run`).
- `Ledger` (`ledger.dfy`): the installed-bundles list and the two helpers that
  edit it.
- `Install` (`install.dfy`): the environment the commands consult (`Env`),
  the outcome they return (`Outcome`), the statements of the SQL phase as a
  function (`SqlPhase`), and the class `Installation`, whose methods carry
  out the commands step by step against its fields: the schemas, the
  category rows, the list as held in memory by the configuration
  (`bundlesInstalled`), the list as last written to `config.json`
  (`configFile`), and every statement sent so far (`trace`).
- `Scenarios` (`scenarios.dfy`): whole command runs on a fresh installation,
  proved from the commands' contracts.

The environment is an input: whether the bundle directory exists, whether
`install.sql` and `demodata.sql` can be read, the operator's answer to the
prompt, whether each rewrite of `config.json` succeeds (a reinstall writes it
twice, once in the nested uninstall and once itself, and each write has its own
verdict), and the server's verdict on
each statement (`accepts`). On top of that verdict, the model's server
refuses `CREATE SCHEMA` for a schema that exists and `DROP SCHEMA` (which
has no `IF EXISTS`) for one that does not.

Three facts about the code that the model keeps:

- The bundle is added to the list whenever the install gets past the
  directory check, even when the SQL phase failed or was skipped.
- A declined uninstall returns plain success (`Completed([])`); nothing marks
  it as skipped.
- The list and `config.json` are rewritten on every install that passes the
  directory check and on every confirmed uninstall, whether or not the SQL
  statements succeeded.

## Model

| member | source | states |
|---|---|---|
| Database.Accepted | cmd/install.go:144-151 | a statement the server carries out is one it accepts; CREATE SCHEMA of an existing schema and DROP SCHEMA of a missing one are refused |
| Database.WithoutBundle | cmd/install.go:75-76 | deleting a bundle's web categories keeps exactly the rows of other bundles, each as many times as before, never adds a row, and changes nothing when the bundle has none |
| Database.Step | cmd/install.go:75-80 | a refused statement changes nothing; CREATE adds the schema, DROP removes it, the category delete keeps exactly the rows of the other bundles, each as many times as before, and adds no row; grant, search path and scripts change no modelled state; each statement touches only its own schema (the table's home in the `public` schema is not modelled) |
| Database.Run | cmd/install.go:131-195 | a sequence with no CREATE or DROP leaves the schemas as they were, and one with no category delete leaves the rows as they were |
| Database.RunAppend | cmd/install.go:125-133 | sending one sequence of statements and then another is the same as sending their concatenation (the reinstall's uninstall followed by the install) |
| Database.RunIgnoresNonMutating | cmd/install.go:155-159 | the server's verdict on a statement that changes no modelled state never shows in the resulting state |
| Ledger.Add | cmd/install.go:197-198 | the result lists the bundle exactly once if it was absent, otherwise it is unchanged; existing entries keep their place |
| Ledger.Remove | cmd/install.go:82-83 | the result is the list with every occurrence of the bundle removed (as a multiset); the list is unchanged if the bundle was not listed |
| Ledger.RemoveDistributes | cmd/install.go:82-83 | removal from a concatenation is the concatenation of the removals |
| Ledger.RemoveUndoesAdd | cmd/install.go:82-91 | uninstalling a bundle that an install added gives back the list as it was |
| Ledger.AddRemoveKeepNoDuplicates | cmd/install.go:197-206 | neither helper creates a duplicate entry in a list that had none |
| Ledger.ReaddKeepsEntries | cmd/install.go:125-129 | on a list without duplicates, removing and then re-adding a bundle (a reinstall) lists the same bundles as adding it |
| Install.SqlPhase | cmd/install.go:135-195 | no install.sql means no statement; a refused CREATE SCHEMA ends the phase; otherwise grant and search path follow; the script runs if and only if the search path was accepted; DROP SCHEMA is sent if and only if the search path or script was refused, comes last, and never hits a schema that existed before; demo data runs if and only if everything before succeeded and demo data was asked for and readable |
| Install.SqlPhaseStatements | cmd/install.go:135-195 | the SQL phase sends at most five statements, each one of CREATE SCHEMA, grant, search path, DROP SCHEMA for the bundle itself or one of its two scripts; when demo data runs it is the fifth statement, right after the install script |
| Install.GrantVerdictIrrelevant | cmd/install.go:154-159 | two environments that differ only in the grant's verdict give the same statements and the same final database |
| Install.ExistingSchemaSurvives | cmd/install.go:143-151 | when the bundle's schema already exists, the SQL phase leaves the database exactly as it was |
| Install.RollbackRestores | cmd/install.go:159-172 | after a rollback whose DROP SCHEMA is accepted, the database is as before the install and the bundle's schema is gone |
| Install.SetupRollbackDropsSchema | cmd/install.go:159-172 | a schema setup that ends in an accepted rollback removes the bundle's schema and changes nothing else |
| Install.ScriptSuccessKeepsSchema | cmd/install.go:168-192 | when install.sql succeeds, the database is the old one plus the bundle's schema |
| Install.Installation.constructor | cmd/install.go:82-83 | the state a command starts from: the given schemas and rows, and the `bundlesInstalled` list of the loaded configuration, alike in memory and in config.json; nothing sent yet |
| Install.Installation.Send | cmd/install.go:144 | one `db.Exec`: the result is the server's verdict, the state is the Run of everything sent since the caller's starting point, the trace grows by that statement, the list is untouched |
| Install.Installation.SaveLedger | cmd/install.go:90-98 | the in-memory list becomes the new list; config.json gets it only when the write succeeds; database and trace untouched |
| Install.Installation.UnInstallBundle | cmd/install.go:60-107 | no name gives an error and changes nothing; a declined prompt returns success and changes nothing; otherwise exactly the category delete and the schema drop are sent, the state is their Run, the bundle's rows and schema are gone when those statements are accepted, and the list loses the bundle whatever the server answered |
| Install.Installation.InstallSql | cmd/install.go:135-195 | the statements sent are exactly SqlPhase's, in order, and the database is their Run |
| Install.Installation.SetUpSchema | cmd/install.go:152-193 | after a successful CREATE SCHEMA: grant and search path, then the script or the drop, then demo data, sent in that order; the database is their Run |
| Install.Installation.InstallBundle | cmd/install.go:110-221 | no name gives an error and a missing directory is fatal, both with nothing sent and nothing changed; otherwise the statements are the optional uninstall's followed by SqlPhase on the state it left, the database is their Run, and the list gains the bundle whatever the SQL phase did; config.json holds the new list if the install's own write succeeds, otherwise what the nested uninstall wrote if that write succeeded, otherwise what it held before |
| Install.Installation.InstallFound | cmd/install.go:125-219 | the install once the directory is known to exist: the optional uninstall (with its own config.json write verdict), the SQL phase and the list rewrite, in that order, with the same statements, state, list and config.json as InstallBundle |
| Scenarios.ShopLifecycle | cmd/install.go:60-221 | install of a bundle whose script succeeds lists it and creates its schema; a confirmed uninstall empties the list and removes the schema |
| Scenarios.BrokenInstall | cmd/install.go:168-206 | install of a bundle whose script fails sends create, grant, search path, script and drop, leaves no schema, and still lists the bundle |
| Scenarios.InstallTwice | cmd/install.go:144-151 | a second install without reinstall sends only the refused CREATE SCHEMA and leaves the bundle listed once |
| Scenarios.DeclinedUninstall | cmd/install.go:68-70 | a declined uninstall sends nothing, returns success and keeps the schema and the list |
| Scenarios.ReinstallInstalled | cmd/install.go:125-129 | reinstalling an installed bundle sends the uninstall's two statements and then a full install, ending with the schema present and the bundle listed once |
| Scenarios.ReinstallLosesConfigEntry | cmd/install.go:125-213 | when a reinstall's nested uninstall rewrites config.json but the install's own rewrite fails, config.json no longer lists the bundle while the list in memory and the schema say it is installed |

## Left out

- The helpers that edit the list (`InstallBundle` and `UnInstallBundle` of `core.Bundles`) are not part of this model. `Ledger.Add` and `Ledger.Remove` assume add-if-absent and remove-every-occurrence. Their error result only reaches the log in the commands, and the list they return is stored either way, so the model's helpers return only the list.
- The SQL of `install.sql` and `demodata.sql`: each is one statement that the server accepts or refuses. The tables they create and the rows they insert (web categories included) are not modelled.
- The effect of the admin grant and of the search path on later statements: both are modelled only as accepted or refused.
- The server's verdict depends only on the statement (and on whether the schema exists), so the same statement gets the same verdict each time it is sent.
- The SQL text of the statement templates and the `Sprintf` that fills them in. Names are never checked, so an unsafe bundle name is not modelled.
- Database.Step: schema names are compared exactly as written. The templates put the name in unquoted, and PostgreSQL folds unquoted identifiers to lower case, so on the server `Shop` and `shop` are one schema (a confirmed `uninstall Shop` drops `shop`) while the model treats them as two.
- Database.Step: the model does not place the `web_categories` table in the shared `public` schema. Bundle names are never checked, so a confirmed `uninstall public` sends `DROP SCHEMA public CASCADE`, which on the server drops the table and every bundle's rows with it; the model drops only the schema name and keeps the rows.
- Database.WithoutBundle: the category-delete template (`core.SQLToDeleteBundleCategories`, used at `cmd/install.go:76`) is not part of this model, and the `web_categories` table as created in `ecosql/sqlQueries.go` has no bundle column. The model assumes each row carries its bundle's name and that the delete matches that name exactly; if the real template matches by prefix, uninstalling `shop` would also delete the rows of `shopping`, which the model does not capture.
- Install.Installation.SaveLedger: a failed write is modelled as leaving `config.json` as it was. `ioutil.WriteFile` opens the file with truncation, so a failure after the open leaves it empty or partly written; that state is not modelled.
- Opening and closing the superuser connection: it is assumed to open, and `Close` is not modelled.
- The `log` output. `log.Fatal` ends the process; the model returns the outcome `Fatal` instead.
- Reading the files: the model gets the answers of `afero.IsDir` and `afero.ReadFile` as flags in `Env`.
- The configuration: only its `bundlesInstalled` field is modelled. `viper.Unmarshal` and `json.MarshalIndent` (whose errors the code ignores) are not.
- The interactive prompt of `core.AskForConfirmation` is replaced by its answer. With `--reinstall`, the nested uninstall's prompt is answered by `env.confirmed`.
- The command-line flags `--demodata` and `--reinstall` become the method parameters `demoData` and `reinstall`.
- Concurrent runs racing on `config.json` are not modelled. The commands run one at a time.
- `email/email.go` is not part of this model. It sends mail over SMTP and has nothing to do with bundles.
- `main.go` is not part of this model. It only starts the process.
- The rest of `ecosql/sqlQueries.go` is not part of this model. Those statements are not used by the two commands.
