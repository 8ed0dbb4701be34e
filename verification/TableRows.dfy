/**
 Rows of joins over distinct tables: a row number for every table.
 */
module TableRows {

  type Row = map<string, nat>

  /** The row cut to some tables. */
  function Part(r: Row, tables: set<string>): (s: Row)
    ensures s.Keys == r.Keys * tables
    ensures forall name :: name in s ==> s[name] == r[name]
  {
    map name | name in r.Keys && name in tables :: r[name]
  }
}
