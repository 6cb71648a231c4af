/**
 * The Google Cloud Platform family as the program runs it: one shared object
 * holding the family's five fields, and one service object per product, each
 * of which reads its own entry after the family answers.
 *
 * A queued callback is the closure `updateStatus` hands to the family; it is
 * identified here by the service it updates. Firing it updates that service
 * and hands the service to the caller's callback: the methods return, in
 * order, the services handed over.
 */
module GoogleCloudPlatform {
  import opened Wrappers
  import opened ServiceStatuses
  import opened Classifier
  import opened Resolution
  import opened FetchCoalescer

  /** The one status page every service of the family reads. */
  const Endpoint: string := "https://status.cloud.google.com"

  class Service {
    const name: string
    /** Every product of the family reports the same page. */
    const url: string := Endpoint
    var status: ServiceStatus
    var message: string

    constructor (name: string)
      ensures this.name == name && status == Undetermined && message == ""
    {
      this.name := name;
      status := Undetermined;
      message := "";
    }

    /** The queued closure's work before it calls back: look the name up and show the result. */
    method Refresh(statuses: map<string, ServiceStatus>, loadErrorMessage: Option<string>)
      modifies this
      ensures Report(status, message) == ReportFor(statuses, loadErrorMessage, name)
    {
      if name in statuses {
        status := statuses[name];
        message := Message(status);
      } else {
        status := Undetermined;
        message := loadErrorMessage.GetOr("");
      }
    }

    /** Asks the family for an update; the services returned are the ones called back now. */
    method UpdateStatus(family: Family, now: int) returns (fired: seq<Service>, fetch: bool)
      modifies family, family.callbacks, this
      ensures var t := OnRequest(old(family.State()), this, now);
              family.State() == t.state && fired == t.fired && fetch == t.fetch
      ensures forall s :: s in fired ==> family.Shows(s)
      ensures fired == [] ==> unchanged(old(family.callbacks)) && unchanged(this)
    {
      fired, fetch := family.Request(this, now);
    }
  }

  class Family {
    var statuses: map<string, ServiceStatus>
    var callbacks: seq<Service>
    var lastUpdateTime: int
    var currentlyReloading: bool
    var loadErrorMessage: Option<string>

    function State(): FamilyState<Service>
      reads this
    {
      FamilyState(statuses, callbacks, lastUpdateTime, currentlyReloading, loadErrorMessage)
    }

    /** The service shows what the current map and error say about its name. */
    ghost predicate Shows(s: Service)
      reads this, s
    {
      Report(s.status, s.message) == ReportFor(statuses, loadErrorMessage, s.name)
    }

    constructor ()
      ensures State() == Initial()
    {
      statuses := map[];
      callbacks := [];
      lastUpdateTime := 0;
      currentlyReloading := false;
      loadErrorMessage := None;
    }

    /** Fires every queued callback in order, then empties the queue. */
    method Drain() returns (fired: seq<Service>)
      modifies this`callbacks, callbacks
      ensures fired == old(callbacks) && callbacks == []
      ensures forall s :: s in fired ==> Shows(s)
    {
      fired := callbacks;
      var i := 0;
      while i < |fired|
        invariant 0 <= i <= |fired|
        invariant forall k :: 0 <= k < i ==> Shows(fired[k])
      {
        fired[i].Refresh(statuses, loadErrorMessage);
        i := i + 1;
      }
      callbacks := [];
    }

    /** `status(for:callback:)`: queue, then wait, serve from the cache, or start the one fetch. */
    method Request(cb: Service, now: int) returns (fired: seq<Service>, fetch: bool)
      modifies this, callbacks, cb
      ensures var t := OnRequest(old(State()), cb, now);
              State() == t.state && fired == t.fired && fetch == t.fetch
      ensures forall s :: s in fired ==> Shows(s)
      ensures fired == [] ==> unchanged(old(callbacks)) && unchanged(cb)
    {
      callbacks := callbacks + [cb];
      if currentlyReloading {
        return [], false;
      }
      if now - lastUpdateTime >= FreshnessWindow {
        currentlyReloading := true;
        return [], true;
      }
      fired := Drain();
      fetch := false;
    }

    /** The completion handler of the fetch. */
    method Resolve(outcome: Outcome) returns (fired: seq<Service>)
      modifies this, callbacks
      ensures var t := OnCompletion(old(State()), outcome);
              State() == t.state && fired == t.fired
      ensures forall s :: s in fired ==> Shows(s)
      ensures fired == [] ==> unchanged(old(callbacks))
    {
      statuses := map[];
      match outcome {
        case Rows(rows) =>
          var i := 0;
          while i < |rows|
            invariant 0 <= i <= |rows|
            invariant statuses == Classified(rows[..i])
            invariant callbacks == old(callbacks) && loadErrorMessage == old(loadErrorMessage)
            invariant lastUpdateTime == old(lastUpdateTime) && currentlyReloading == old(currentlyReloading)
          {
            assert rows[..i + 1][..i] == rows[..i];
            var row := rows[i];
            if row.name.Some? {
              statuses := statuses[row.name.value := Classify(row.bubbles)];
            }
            i := i + 1;
          }
          assert rows[..i] == rows;
          fired := Drain();
          currentlyReloading := false;
        case _ =>
          loadErrorMessage := Some(FailureMessage(outcome));
          fired := [];
      }
    }
  }

  /** The products of the family, in registry order; each shares the one endpoint. */
  const ServiceNames: seq<string> := [
    "Google App Engine",
    "Google Compute Engine",
    "Google Cloud Storage",
    "Google BigQuery",
    "Google Cloud Dataproc",
    "Google Cloud Datastore",
    "Google Cloud DNS",
    "Google Cloud Pub/Sub",
    "Google Cloud SQL",
    "Google Cloud Dataflow",
    "Google Container Engine",
    "Google Cloud Console",
    "Google Stackdriver",
    "Google Cloud Bigtable"
  ]

  /** No two products share a name, so no two services read the same entry. */
  lemma ServiceNamesDistinct()
    ensures |ServiceNames| == 14
    ensures forall i, j :: 0 <= i < j < |ServiceNames| ==> ServiceNames[i] != ServiceNames[j]
  {
  }

  /** One fresh service per product, not yet updated. */
  method Registry() returns (services: seq<Service>)
    ensures |services| == |ServiceNames|
    ensures forall i :: 0 <= i < |services| ==>
      fresh(services[i]) && services[i].name == ServiceNames[i]
      && services[i].status == Undetermined && services[i].message == ""
  {
    services := [];
    for i := 0 to |ServiceNames|
      invariant |services| == i
      invariant forall k :: 0 <= k < i ==>
        fresh(services[k]) && services[k].name == ServiceNames[k]
        && services[k].status == Undetermined && services[k].message == ""
    {
      var service := new Service(ServiceNames[i]);
      services := services + [service];
    }
  }
}
