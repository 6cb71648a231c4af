/**
 * The row classifier of the Google Cloud status page: every `.timeline tr`
 * row that names a service contributes one entry to the status map.
 *
 * HTML parsing and CSS selection are abstracted away: a row is given as the
 * trimmed text of its first `.service-status` element (if it has one) and the
 * set of extra class tokens carried by its `.end-bubble` elements, so that
 * `"ok" in bubbles` stands for `tr.css(".end-bubble.ok").count > 0`.
 */
module Classifier {
  import opened Wrappers
  import opened ServiceStatuses

  datatype Row = Row(name: Option<string>, bubbles: set<string>)

  /** The bubble token that signals a known status. */
  function Token(s: ServiceStatus): string
    requires s != Undetermined
  {
    if s == Good then "ok" else if s == Minor then "medium" else "high"
  }

  /** Precedence among the bubble tokens: a smaller rank wins; `Undetermined` comes last. */
  function Rank(s: ServiceStatus): nat {
    match s
    case Good => 0
    case Minor => 1
    case Major => 2
    case Undetermined => 3
  }

  /**
   * The status of one row. The result is the highest-precedence status whose
   * token is present, and `Undetermined` exactly when no known token is.
   */
  function Classify(bubbles: set<string>): (r: ServiceStatus)
    ensures r != Undetermined ==> Token(r) in bubbles
    ensures forall s: ServiceStatus :: s != Undetermined && Token(s) in bubbles ==> Rank(r) <= Rank(s)
  {
    if "ok" in bubbles then Good
    else if "medium" in bubbles then Minor
    else if "high" in bubbles then Major
    else Undetermined
  }

  /** The map the row loop builds from an empty map, one row after the other. */
  function Classified(rows: seq<Row>): (r: map<string, ServiceStatus>)
    ensures |r| <= |rows|
  {
    if rows == [] then map[]
    else
      var before := Classified(rows[..|rows| - 1]);
      var row := rows[|rows| - 1];
      match row.name
      case None => before
      case Some(n) => before[n := Classify(row.bubbles)]
  }

  /** Exactly the names carried by some row are keys: nameless rows are skipped, no named row is dropped. */
  lemma {:induction false} ClassifiedKeys(rows: seq<Row>, n: string)
    ensures n in Classified(rows) <==> exists i :: 0 <= i < |rows| && rows[i].name == Some(n)
  {
    if rows != [] {
      var prefix := rows[..|rows| - 1];
      ClassifiedKeys(prefix, n);
      if n in Classified(rows) && n !in Classified(prefix) {
        assert rows[|rows| - 1].name == Some(n);
      }
      if exists i :: 0 <= i < |rows| && rows[i].name == Some(n) {
        var i :| 0 <= i < |rows| && rows[i].name == Some(n);
        if i < |rows| - 1 {
          assert prefix[i] == rows[i];
        }
      }
    }
  }

  /** A named row that no later row names again decides that name's status. */
  lemma {:induction false} ClassifiedLastRowWins(rows: seq<Row>, i: nat)
    requires i < |rows| && rows[i].name.Some?
    requires forall j :: i < j < |rows| ==> rows[j].name != rows[i].name
    ensures rows[i].name.value in Classified(rows)
    ensures Classified(rows)[rows[i].name.value] == Classify(rows[i].bubbles)
  {
    if i < |rows| - 1 {
      var prefix := rows[..|rows| - 1];
      assert prefix[i] == rows[i];
      forall j | i < j < |prefix| ensures prefix[j].name != prefix[i].name {
        assert prefix[j] == rows[j];
      }
      ClassifiedLastRowWins(prefix, i);
    }
  }
}
