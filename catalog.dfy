/**
  The bundle statements of the SQL statement catalog. Each constructor stands
  for one statement template instantiated with the bundle's name, which is
  also the name of the bundle's schema; the SQL text is not modelled.
 */
module Catalog {

  datatype Statement =
    | CreateSchema(name: string)      // CREATE SCHEMA <name>
    | GrantAdmin(name: string)        // default privileges on the tables and sequences of <name> for admin
    | SetSearchPath(name: string)     // SET search_path TO <name>, public
    | RunInstallScript                // the bundle's install.sql, sent as one batch
    | RunDemoScript                   // the bundle's demodata.sql, sent as one batch
    | DropSchema(name: string)        // DROP SCHEMA <name> CASCADE
    | DeleteCategories(name: string)  // delete the web categories that belong to bundle <name>

  /** The statements that can change the modelled database state. */
  predicate Mutates(s: Statement)
  {
    s.CreateSchema? || s.DropSchema? || s.DeleteCategories?
  }

  /** Whether s is one of the statements an install of bundle n may send. */
  predicate InstallsBundle(s: Statement, n: string)
  {
    match s
    case CreateSchema(m) => m == n
    case GrantAdmin(m) => m == n
    case SetSearchPath(m) => m == n
    case RunInstallScript => true
    case RunDemoScript => true
    case DropSchema(m) => m == n
    case DeleteCategories(_) => false
  }
}
