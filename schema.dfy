/**
 * The schema snapshot the generators read: tables in catalog order, each
 * with its columns in declaration order.
 */
module Schema {

  /** One column: its name and its declared type, as `PRAGMA table_info` reports them. */
  datatype Column = Column(name: string, ty: string)

  /** `schema::TableInfo`, the SELECT generator's view: column names only. */
  datatype TableInfo = TableInfo(name: string, columns: seq<string>)

  /** The INSERT/UPDATE/DELETE/UPSERT generators' view: `(name, type)` columns. */
  datatype Table = Table(name: string, columns: seq<Column>)

  /** The CREATE TRIGGER generator's view, with the primary-key flag. */
  datatype TriggerTable = TriggerTable(name: string, columns: seq<Column>, hasPrimaryKey: bool)

  function Names(cols: seq<Column>): (ns: seq<string>)
    ensures |ns| == |cols| && forall i :: 0 <= i < |cols| ==> ns[i] == cols[i].name
  {
    seq(|cols|, i requires 0 <= i < |cols| => cols[i].name)
  }

  predicate Distinct<T(==)>(s: seq<T>)
  {
    forall i, j :: 0 <= i < j < |s| ==> s[i] != s[j]
  }

  /** Every element of a sequence occurs in any sequence with the same multiset. */
  lemma MultisetMembers<T>(p: seq<T>, q: seq<T>)
    requires multiset(p) <= multiset(q)
    ensures forall x :: x in p ==> x in q
  {
    forall x | x in p
      ensures x in q
    {
      assert x in multiset(p);
    }
  }

  /** A prefix of a sequence without repetitions has none either. */
  lemma DistinctPrefix<T>(s: seq<T>, n: nat)
    requires Distinct(s) && n <= |s|
    ensures Distinct(s[..n])
  {
  }

  /** Taking the names commutes with taking a prefix. */
  lemma NamesPrefix(cols: seq<Column>, n: nat)
    requires n <= |cols|
    ensures Names(cols[..n]) == Names(cols)[..n]
  {
  }
}
