/** The table probe page of app/database-test/page.tsx: four named entries,
    one per table, updated one by one by a loop that counts each table's
    rows; a reported error or a thrown exception marks that entry alone as
    failed. The count queries are not modelled; their outcomes are
    parameters. */
module DatabaseTest {
  import opened Common

  datatype TableStatus = Loading | Success | Error

  /** One entry of the page (its icon is left out). */
  datatype TableTest = TableTest(name: string, status: TableStatus, count: Option<nat>, error: Option<string>)

  const TableNames: seq<string> := ["profiles", "onboarding", "opportunities", "ai_comments"]

  /** The list holds the four tables, in their order. */
  predicate Listed(ts: seq<TableTest>)
  {
    |ts| == |TableNames| && forall i | 0 <= i < |ts| :: ts[i].name == TableNames[i]
  }

  /** The list the page starts with: the four tables, all loading, with no
      count and no error. */
  function InitialTables(): (ts: seq<TableTest>)
    ensures Listed(ts)
    ensures forall i | 0 <= i < |ts| :: ts[i].status == Loading && ts[i].count.None? && ts[i].error.None?
  {
    seq(|TableNames|, i requires 0 <= i < |TableNames| => TableTest(TableNames[i], Loading, None, None))
  }

  /** What one probe does to its table's entry. When the query comes back,
      the entry fails exactly when an error is reported, takes the error's
      message, and takes the count, 0 when none came back. When the query
      throws, the entry fails with the exception's message and keeps the
      count it had. The name never changes. */
  function Probed(t: TableTest, r: Response<Option<nat>>): (u: TableTest)
    ensures u.name == t.name
    ensures u.status == Success <==> r.Ok()
    ensures u.status != Loading
    ensures r.Responded? ==> u.count == Some(CountOrZero(r.data)) && u.error == r.error
    ensures r.Threw? ==> u.count == t.count && u.error == Some(r.message)
  {
    match r
    case Responded(error, count) =>
      t.(status := if error.Some? then Error else Success, count := Some(CountOrZero(count)), error := error)
    case Threw(message) =>
      t.(status := Error, error := Some(message))
  }

  /** The `setTables((prev) => prev.map(...))` of one probe: every entry
      named `name` is probed; the length, the order and every other entry
      stay as they were. */
  function ProbedByName(ts: seq<TableTest>, name: string, r: Response<Option<nat>>): (u: seq<TableTest>)
    ensures |u| == |ts|
    ensures forall i | 0 <= i < |ts| :: u[i] == if ts[i].name == name then Probed(ts[i], r) else ts[i]
  {
    if ts == [] then []
    else [if ts[0].name == name then Probed(ts[0], r) else ts[0]] + ProbedByName(ts[1..], name, r)
  }

  /** On the listed tables a probe by a table's name changes that entry alone. */
  lemma ProbeOne(ts: seq<TableTest>, k: nat, r: Response<Option<nat>>)
    requires Listed(ts) && k < |TableNames|
    ensures ProbedByName(ts, TableNames[k], r) == ts[k := Probed(ts[k], r)]
  {
    var u := ProbedByName(ts, TableNames[k], r);
    forall i | 0 <= i < |ts| ensures u[i] == ts[k := Probed(ts[k], r)][i] {
      if i != k {
        assert ts[i].name != TableNames[k];
      }
    }
  }

  /** `allTablesWorking` */
  predicate AllTablesWorking(ts: seq<TableTest>)
  {
    forall i | 0 <= i < |ts| :: ts[i].status == Success
  }

  /** The page's state. */
  class DatabaseTestPage {
    var tables: seq<TableTest>

    ghost predicate Valid()
      reads this
    {
      Listed(tables)
    }

    constructor ()
      ensures Valid() && tables == InitialTables()
    {
      tables := InitialTables();
    }

    /** `testAllTables`: the four tables are probed in order, each by its
        name, whatever happened to the ones before; entries are not set back
        to loading first, so a thrown probe keeps the count of the run
        before. Afterwards every table works exactly when every query came
        back without an error. */
    method TestAllTables(replies: seq<Response<Option<nat>>>)
      requires Valid() && |replies| == |TableNames|
      modifies this
      ensures Valid()
      ensures forall k | 0 <= k < |TableNames| :: tables[k] == Probed(old(tables)[k], replies[k])
      ensures AllTablesWorking(tables) <==> forall k | 0 <= k < |TableNames| :: replies[k].Ok()
    {
      for i := 0 to |TableNames|
        invariant Valid()
        invariant forall k | 0 <= k < i :: tables[k] == Probed(old(tables)[k], replies[k])
        invariant forall k | i <= k < |TableNames| :: tables[k] == old(tables)[k]
      {
        ProbeOne(tables, i, replies[i]);
        tables := ProbedByName(tables, TableNames[i], replies[i]);
      }
      assert forall k | 0 <= k < |TableNames| :: tables[k].status == Success <==> replies[k].Ok();
    }
  }
}
