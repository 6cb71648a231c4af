/** How one service reads its own entry from the family's status map. */
module Resolution {
  import opened Wrappers
  import opened ServiceStatuses
  import opened Classifier
  import opened FetchCoalescer

  /** What a service shows after an update: its status and its human-readable message. */
  datatype Report = Report(status: ServiceStatus, message: string)

  /** The fixed message for a status found in the map; each known status has its own. */
  function Message(s: ServiceStatus): (m: string)
    ensures m != ""
    ensures s != Undetermined ==> m != "Unexpected Error"
  {
    match s
    case Good => "Normal Operations"
    case Minor => "Service Disruption"
    case Major => "Service Outage"
    case Undetermined => "Unexpected Error"
  }

  /**
   * The report of the service called `name`: a status found in the map is shown
   * with its fixed message; a missing name is undetermined and shows the last
   * load error, or nothing.
   */
  function ReportFor(statuses: map<string, ServiceStatus>, loadErrorMessage: Option<string>, name: string): (r: Report)
    ensures name in statuses ==> r == Report(statuses[name], Message(statuses[name]))
    ensures name !in statuses ==> r == Report(Undetermined, loadErrorMessage.GetOr(""))
  {
    if name in statuses then
      var status := statuses[name];
      Report(status, Message(status))
    else
      Report(Undetermined, loadErrorMessage.GetOr(""))
  }

  /** A report never carries a message that could be mistaken for another known status. */
  lemma MessageIdentifiesStatus(a: ServiceStatus, b: ServiceStatus)
    ensures Message(a) == Message(b) <==> a == b
  {
  }

  /** After a successful parse, a service named by a row shows the last such row's classification. */
  lemma ReportOfNamedService(rows: seq<Row>, i: nat, loadErrorMessage: Option<string>)
    requires i < |rows| && rows[i].name.Some?
    requires forall j :: i < j < |rows| ==> rows[j].name != rows[i].name
    ensures var status := Classify(rows[i].bubbles);
            ReportFor(Classified(rows), loadErrorMessage, rows[i].name.value) == Report(status, Message(status))
  {
    ClassifiedLastRowWins(rows, i);
  }

  /** After a successful parse, a service no row names is undetermined with the load error message, or none. */
  lemma ReportOfUnnamedService(rows: seq<Row>, name: string, loadErrorMessage: Option<string>)
    requires forall i :: 0 <= i < |rows| ==> rows[i].name != Some(name)
    ensures ReportFor(Classified(rows), loadErrorMessage, name) == Report(Undetermined, loadErrorMessage.GetOr(""))
  {
    ClassifiedKeys(rows, name);
  }

  /**
   * In every reachable family, a service missing from a successful answer
   * shows an empty message: the load error is never cleared by a success, but
   * a success can only follow a fetch issued while no error was recorded.
   */
  lemma UnmappedAfterSuccess<C>(sys: System<C>, rows: seq<Row>, name: string)
    requires Inv(sys) && sys.inFlight == 1
    requires forall i :: 0 <= i < |rows| ==> rows[i].name != Some(name)
    ensures var after := Step(sys, Complete(Rows(rows))).sys.family;
            ReportFor(after.statuses, after.loadErrorMessage, name) == Report(Undetermined, "")
  {
    ReportOfUnnamedService(rows, name, None);
  }
}
