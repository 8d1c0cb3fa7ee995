/** The application_info table and the repository that reads and writes it.
    The table is a sequence of rows in storage order; the SQL statements become the
    functions Where (SELECT … WHERE name = ?) and UpdateWhere (UPDATE … WHERE name = ?). */
module Repository {
  import opened Model

  /** The rows a SELECT … WHERE name = ? returns, in table order. */
  function Where(rows: seq<ApplicationInfo>, name: string): (r: seq<ApplicationInfo>)
    ensures |r| <= |rows|
    ensures forall x :: x in r <==> x in rows && x.name == name
    decreases |rows|
  {
    if rows == [] then []
    else (if rows[0].name == name then [rows[0]] else []) + Where(rows[1..], name)
  }

  /** What findByName returns: the first row of the WHERE result, if there is one. */
  function Lookup(rows: seq<ApplicationInfo>, name: string): (r: Option<ApplicationInfo>)
    ensures r.None? <==> forall i :: 0 <= i < |rows| ==> rows[i].name != name
    ensures r.Some? ==> r.value in rows && r.value.name == name
  {
    var found := Where(rows, name);
    if found == [] then None
    else
      assert found[0] in found && found[0] in rows;
      Some(found[0])
  }

  /** A row after UPDATE … SET status = ?, updated_at = ? WHERE name = ? with the values of `info`. */
  function Touch(row: ApplicationInfo, info: ApplicationInfo): (r: ApplicationInfo)
    ensures r.name == row.name && r.createdAt == row.createdAt
    ensures row.name == info.name ==> r.status == info.status && r.updatedAt == info.updatedAt
    ensures row.name != info.name ==> r == row
  {
    if row.name == info.name then row.(status := info.status, updatedAt := info.updatedAt) else row
  }

  /** The table after the UPDATE statement of AppRepository.update: every row named
      `info.name` takes its status and updatedAt; nothing else changes. */
  function UpdateWhere(rows: seq<ApplicationInfo>, info: ApplicationInfo): (r: seq<ApplicationInfo>)
    ensures |r| == |rows|
    ensures forall i :: 0 <= i < |rows| ==>
      r[i].name == rows[i].name && r[i].createdAt == rows[i].createdAt
    ensures forall i :: 0 <= i < |rows| && rows[i].name == info.name ==>
      r[i].status == info.status && r[i].updatedAt == info.updatedAt
    ensures forall i :: 0 <= i < |rows| && rows[i].name != info.name ==> r[i] == rows[i]
    decreases |rows|
  {
    if rows == [] then [] else [Touch(rows[0], info)] + UpdateWhere(rows[1..], info)
  }

  lemma {:induction false} WhereAppend(a: seq<ApplicationInfo>, b: seq<ApplicationInfo>, name: string)
    ensures Where(a + b, name) == Where(a, name) + Where(b, name)
    decreases |a|
  {
    if a == [] {
      assert a + b == b;
    } else {
      assert (a + b)[1..] == a[1..] + b;
      WhereAppend(a[1..], b, name);
    }
  }

  /** findByName finds the FIRST row with the name. */
  lemma {:induction false} LookupIsFirst(rows: seq<ApplicationInfo>, name: string, i: nat)
    requires i < |rows| && rows[i].name == name
    requires forall j :: 0 <= j < i ==> rows[j].name != name
    ensures Lookup(rows, name) == Some(rows[i])
    decreases i
  {
    if i > 0 {
      LookupIsFirst(rows[1..], name, i - 1);
    }
  }

  /** After an INSERT, a lookup finds the earlier first row if there was one, else the new row. */
  lemma LookupAfterInsert(rows: seq<ApplicationInfo>, info: ApplicationInfo, name: string)
    ensures Lookup(rows + [info], name) ==
      if Lookup(rows, name).Some? then Lookup(rows, name)
      else if info.name == name then Some(info)
      else None
  {
    WhereAppend(rows, [info], name);
    assert [info][1..] == [];
  }

  /** After the UPDATE, a lookup finds the same row as before, touched if its name matches. */
  lemma {:induction false} LookupAfterUpdate(rows: seq<ApplicationInfo>, info: ApplicationInfo, name: string)
    ensures Lookup(UpdateWhere(rows, info), name) ==
      match Lookup(rows, name)
      case None => None
      case Some(row) => Some(Touch(row, info))
    decreases |rows|
  {
    if rows != [] {
      LookupAfterUpdate(rows[1..], info, name);
      assert UpdateWhere(rows, info)[1..] == UpdateWhere(rows[1..], info);
    }
  }

  /** A JDBC result set: the rows a query produced and a cursor over them. */
  class ResultSet {
    const rows: seq<ApplicationInfo>
    /** How many rows next() has moved past; the current row is rows[cursor - 1]. */
    var cursor: nat

    ghost predicate Valid()
      reads this
    {
      cursor <= |rows|
    }

    constructor (rows: seq<ApplicationInfo>)
      ensures this.rows == rows && cursor == 0 && Valid()
    {
      this.rows := rows;
      cursor := 0;
    }

    /** next(): moves to the following row and says whether there was one. */
    method Next() returns (more: bool)
      requires Valid()
      modifies this
      ensures Valid()
      ensures more <==> old(cursor) < |rows|
      ensures cursor == if more then old(cursor) + 1 else old(cursor)
    {
      more := cursor < |rows|;
      if more {
        cursor := cursor + 1;
      }
    }
  }

  class AppRepository {
    /** The application_info table, in storage order. */
    var rows: seq<ApplicationInfo>

    constructor ()
      ensures rows == []
    {
      rows := [];
    }

    /** fetchList: maps every remaining row, in order, until next() says there is none. */
    method FetchList<T>(rs: ResultSet, mapper: ApplicationInfo -> T) returns (result: seq<T>)
      requires rs.Valid()
      modifies rs
      ensures rs.Valid() && rs.cursor == |rs.rows|
      ensures |result| == |rs.rows| - old(rs.cursor)
      ensures forall i :: 0 <= i < |result| ==> result[i] == mapper(rs.rows[old(rs.cursor) + i])
    {
      ghost var start := rs.cursor;
      result := [];
      var more := rs.Next();
      while more
        invariant rs.Valid()
        invariant rs.cursor == start + |result| + (if more then 1 else 0)
        invariant !more ==> rs.cursor == |rs.rows|
        invariant forall i :: 0 <= i < |result| ==> result[i] == mapper(rs.rows[start + i])
        decreases |rs.rows| - |result|
      {
        result := result + [mapper(rs.rows[rs.cursor - 1])];
        more := rs.Next();
      }
    }

    /** fetchSingle: maps the next row, if there is one. */
    method FetchSingle<T>(rs: ResultSet, mapper: ApplicationInfo -> T) returns (result: Option<T>)
      requires rs.Valid()
      modifies rs
      ensures rs.Valid()
      ensures result == if old(rs.cursor) < |rs.rows| then Some(mapper(rs.rows[old(rs.cursor)])) else None
      ensures rs.cursor == if old(rs.cursor) < |rs.rows| then old(rs.cursor) + 1 else old(rs.cursor)
    {
      var more := rs.Next();
      if more {
        result := Some(mapper(rs.rows[rs.cursor - 1]));
      } else {
        result := None;
      }
    }

    /** INSERT the record; the record itself is returned. */
    method Create(appInfo: ApplicationInfo) returns (r: ApplicationInfo)
      modifies this
      ensures rows == old(rows) + [appInfo]
      ensures r == appInfo
    {
      rows := rows + [appInfo];
      r := appInfo;
    }

    /** UPDATE status and updated_at of the rows with the record's name; the argument is
        returned whether or not any row matched. */
    method Update(appInfo: ApplicationInfo) returns (r: ApplicationInfo)
      modifies this
      ensures rows == UpdateWhere(old(rows), appInfo)
      ensures r == appInfo
    {
      rows := UpdateWhere(rows, appInfo);
      r := appInfo;
    }

    /** findByName: the first row with the name, or None; the table is not changed. */
    method FindByName(name: string) returns (r: Option<ApplicationInfo>)
      ensures r == Lookup(rows, name)
      ensures r.None? <==> forall i :: 0 <= i < |rows| ==> rows[i].name != name
    {
      var rs := new ResultSet(Where(rows, name));
      r := FetchSingle(rs, (row: ApplicationInfo) => row);
    }

    /** findAll: one element per row, in table order; the table is not changed. */
    method FindAll() returns (r: seq<ApplicationInfo>)
      ensures r == rows
    {
      var rs := new ResultSet(rows);
      r := FetchList(rs, (row: ApplicationInfo) => row);
    }
  }
}
