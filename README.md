# stts: the Google Cloud Platform status family

stts shows the health of cloud services in the macOS menu bar. All Google
Cloud Platform products read one HTML status page. Shared state on the
`GoogleCloudPlatform` class makes sure that page is fetched once for the whole
family, not once per product. This project models that family in Dafny and
proves properties of the model.

It has three parts:

- **The fetch coalescer.** It models `status(for:callback:)` and the fetch's
  completion handler. The family has five shared fields: `statuses`,
  `callbacks`, `lastUpdateTime`, `currentlyReloading` and `loadErrorMessage`.
  - Module `FetchCoalescer` gives the pure transition functions of those
    fields (`OnRequest`, `OnCompletion`). It also has a system view that
    counts fetches issued but not yet answered, with lemmas about whole runs
    of requests and answers.
  - Class `GoogleCloudPlatform.Family` holds the same fields as mutable
    state. Its methods `Request(cb, now)` and `Resolve(outcome)` are proved
    equal to those transitions. Each returns the callbacks it fired, in order.
- **The row classifier** (module `Classifier`). Each `.timeline tr` row
  becomes one status. A row without a name is skipped, and a later row with
  the same name overrides an earlier one.
- **Per-service resolution.** Module `Resolution` and class
  `GoogleCloudPlatform.Service` cover this. A service looks up its own name,
  then sets its status and message.

The 14 product subclasses are the constant `ServiceNames` and the method
`Registry`. Every service has the same `url`, the constant `Endpoint`.

Time is an integer count of seconds. A fetch's result is an `Outcome`, given
as an explicit event:

- `NoData(error?)`: no body arrived;
- `Unreadable`: the body is not UTF-8;
- `Unparseable`: the text is not HTML;
- `Rows(rows)`: the page's rows.

Each row is the trimmed name of its `.service-status` element, if it has one,
plus the set of class tokens on its `.end-bubble` elements.

The model follows the code as written, including three places where the code
works against its own freshness window and error reporting:

- **A failed fetch strands the family.** The three failure branches (lines
  40-46) record an error and return before the drain at lines 63-66. So
  callers queued when a fetch fails are never called back, and
  `currentlyReloading` stays set. `FailureIsTerminal` proves that nothing is
  fired again and no fetch is issued again; each later request only joins the
  queue.
- **`lastUpdateTime` is never written.** The `>= 60` guard at line 29 only
  matters if `lastUpdateTime` is written, and nothing after line 11 writes it.
  `EveryRequestIsStale` proves that, from the initial state, a request made 60
  or more seconds after the epoch never takes the cached fast path.
- **`loadErrorMessage` is never reset.** It is assigned only at lines 18, 22
  and 41. The invariant `Inv` shows this cannot be observed: once an error is
  recorded the family is stranded, so no success can follow it
  (`UnmappedAfterSuccess`).

## Model

| member | source | states |
|---|---|---|
| `Classifier.Classify` | stts/Services/GoogleCloudPlatform.swift:51-58 | The row status is the highest-precedence status (ok, then medium, then high) whose bubble token is present. It is undetermined exactly when none of the three tokens is present. |
| `Classifier.Classified` | stts/Services/GoogleCloudPlatform.swift:48-61 | The map the row loop builds from an empty map has at most one key per row. With `ClassifiedKeys` and `ClassifiedLastRowWins`, its keys are exactly the names of the named rows, and each key gets the classification of the last row that carries it. `Family.Resolve`'s loop is proved equal to it. |
| `Classifier.ClassifiedKeys` | stts/Services/GoogleCloudPlatform.swift:48-61 | A name is a key of the built map exactly when some row carries it. Nameless rows add nothing, and no named row is dropped. |
| `Classifier.ClassifiedLastRowWins` | stts/Services/GoogleCloudPlatform.swift:48-61 | If no later row repeats a row's name, that name maps to the row's classification. So the last row with a name decides that name's status. |
| `Resolution.Message` | stts/Services/GoogleCloudPlatform.swift:77-82 | A found status always gets a non-empty message. A known status never gets the "Unexpected Error" message. |
| `Resolution.MessageIdentifiesStatus` | stts/Services/GoogleCloudPlatform.swift:77-82 | Two statuses get the same message exactly when they are the same status. |
| `Resolution.ReportFor` | stts/Services/GoogleCloudPlatform.swift:74-86 | A name in the map reports its status with that status's fixed message. A missing name reports undetermined with the load error, or "" when there is none. |
| `Resolution.ReportOfNamedService` | stts/Services/GoogleCloudPlatform.swift:48-82 | After a successful parse, a service named by a row reports the classification of the last row with its name, whatever the load error. |
| `Resolution.ReportOfUnnamedService` | stts/Services/GoogleCloudPlatform.swift:83-86 | After a successful parse, a service that no row names reports undetermined with the load error message, or "". |
| `Resolution.UnmappedAfterSuccess` | stts/Services/GoogleCloudPlatform.swift:60-86 | In any family that satisfies the invariant, a successful answer that names no row for a service makes that service report undetermined with an empty message. The never-cleared load error cannot show up there. |
| `FetchCoalescer.FailureMessage` | stts/Services/GoogleCloudPlatform.swift:17-46 | A missing body stores the transport error's description, or "Unexpected error" when there is none. An unreadable body stores "Unreadable response" and unparseable text stores "Couldn't parse response". |
| `FetchCoalescer.OnRequest` | stts/Services/GoogleCloudPlatform.swift:25-37 | The callback is queued first: callbacks fired plus callbacks still queued equal the old queue plus the new callback, in order. While reloading, nothing else changes. Otherwise a fetch is issued exactly when 60 or more seconds have passed since the last update; if not, the whole queue fires and is emptied. Only a fetch sets the reloading flag. The map, the time and the error never change. |
| `FetchCoalescer.OnCompletion` | stts/Services/GoogleCloudPlatform.swift:37-66 | Fired plus still queued equals the old queue. A failure empties the map, stores its message, fires nothing, and leaves the queue and the reloading flag unchanged. A success replaces the map wholesale by the rows' map, fires the whole queue in order, empties it and clears the reloading flag. The error and the time are left unchanged. |
| `FetchCoalescer.Step` | stts/Services/GoogleCloudPlatform.swift:25-67 | One event conserves the queue (fired plus queued equals old queue plus anything requested) and never changes the last update time. |
| `FetchCoalescer.StartInv` | stts/Services/GoogleCloudPlatform.swift:9-13 | The initial field values satisfy the family invariant. |
| `FetchCoalescer.StepInv` | stts/Services/GoogleCloudPlatform.swift:25-66 | Every request and every answer to an issued fetch preserves the invariant. At most one fetch is in flight, and only while reloading. An idle family has an empty queue and no error. An error exists only when no fetch is in flight. |
| `FetchCoalescer.RunInv` | stts/Services/GoogleCloudPlatform.swift:25-66 | Every run of requests and answers preserves the invariant, so at most one fetch is ever in flight. |
| `FetchCoalescer.OneFetchUntilAnswered` | stts/Services/GoogleCloudPlatform.swift:28-37 | Between two answers, any burst of requests issues at most one fetch, counting one already in flight. |
| `FetchCoalescer.RunConservesCallbacks` | stts/Services/GoogleCloudPlatform.swift:26-66 | Over any run, callbacks fired plus callbacks still queued equal the initial queue plus the requested callbacks in request order. So no callback is fired twice or out of order, for callers that do not request again from inside their own callback (see "## Left out"). |
| `FetchCoalescer.LastUpdateTimeNeverAssigned` | stts/Services/GoogleCloudPlatform.swift:11 | No run of events ever changes `lastUpdateTime`. |
| `FetchCoalescer.EveryRequestIsStale` | stts/Services/GoogleCloudPlatform.swift:29-37 | From the initial state, a request at time 60 or later fires nothing, and it issues a fetch unless the family is reloading. |
| `FetchCoalescer.ReloadingOnlyQueues` | stts/Services/GoogleCloudPlatform.swift:26-28 | While reloading, any sequence of requests only appends its callbacks in order. Nothing fires, no fetch starts and no other field changes. |
| `FetchCoalescer.FailureIsTerminal` | stts/Services/GoogleCloudPlatform.swift:38-46 | After a failed fetch the map is empty and the failure message is stored. From then on nothing is fired and no fetch is issued; every later callback stays queued and the family stays reloading. |
| `FetchCoalescer.StaleBurst` | stts/Services/GoogleCloudPlatform.swift:26-37 | On an idle family with stale data, a burst of requests issues exactly one fetch, fires nothing and queues all callbacks in order. |
| `FetchCoalescer.Coalescing` | stts/Services/GoogleCloudPlatform.swift:25-66 | For a burst followed by a successful answer: exactly one fetch is issued, and every callback of the burst fires once, in request order. The map becomes the rows' map and the family is idle again. |
| `GoogleCloudPlatform.Family.constructor` | stts/Services/GoogleCloudPlatform.swift:9-13 | Empty map, empty queue, time 0, not reloading, no error. |
| `GoogleCloudPlatform.Family.Drain` | stts/Services/GoogleCloudPlatform.swift:30-64 | The drain after a success (lines 63-64) and on the fast path (lines 30-31). It fires the queued callbacks in order and then empties the queue. Each fired service then shows what the current map and error say about its name. |
| `GoogleCloudPlatform.Family.Request` | stts/Services/GoogleCloudPlatform.swift:25-37 | The new fields, the callbacks fired and the fetch flag are exactly those of `OnRequest`. Every fired service shows its entry. When nothing fires, no service is changed. |
| `GoogleCloudPlatform.Family.Resolve` | stts/Services/GoogleCloudPlatform.swift:37-66 | The new fields and the callbacks fired are exactly those of `OnCompletion`. The row loop builds the classified map, and every fired service shows its entry. When nothing fires, no service is changed. |
| `GoogleCloudPlatform.Service.Refresh` | stts/Services/GoogleCloudPlatform.swift:72-87 | The service's status and message become the report for its name in the given map and error. |
| `GoogleCloudPlatform.Service.UpdateStatus` | stts/Services/GoogleCloudPlatform.swift:70-90 | Queues this service's closure with the family and has exactly the effect of `OnRequest`. Every service called back shows its entry. |
| `GoogleCloudPlatform.ServiceNamesDistinct` | stts/Services/GoogleCloudPlatform.swift:93-147 | The registry has 14 product names, all different. |
| `GoogleCloudPlatform.Registry` | stts/Services/GoogleCloudPlatform.swift:93-147 | One fresh service per product, in registry order, with its constant name. Each starts undetermined with an empty message. |

## Left out

- Networking (`URLSession.shared.dataTask`): a fetch is the `fetch` flag of a request. Its answer is a separate `Resolve(outcome)` event that the environment delivers at most once per issued fetch.
- HTML parsing and CSS selection (Kanna), UTF-8 decoding and whitespace trimming: they are given inputs. A row is its trimmed name plus its bubble class tokens, and decode and parse failures are `Outcome` variants.
- Wall-clock time: `Date.timeIntervalSinceReferenceDate` is a `Double`; it is an integer `now` parameter here.
- Concurrency: the completion handler runs on a background queue. The model treats requests and answers as sequential events.
- Re-entrancy: requests that a caller's callback makes while the queue is draining are not modelled. In the source, such a request appends to `callbacks` during `forEach`. After a success, `currentlyReloading` is still set, so the request only queues, and `callbacks = []` at line 64 then discards it: that caller is never called back. On the fast path, the nested request drains the whole queue again, so earlier callbacks fire a second time, and line 31 then empties the queue. `RunConservesCallbacks` (no callback fired twice) therefore holds only for callers that do not request again from inside their callback. The caller's callbacks are identified only by the service handed to them.
- `[weak self]` and ARC: every service lives for the whole process, so the weak reference in `updateStatus` is always present.
- `Service` base class: its initial `status` and `message`, and the `ServiceStatus` enumeration. Service.swift is not part of this model; the model assumes `undetermined` with an empty message, and the four statuses `undetermined`, `good`, `minor` and `major`.
- The settings view (stts/EditorTableView/SettingsView.swift): user-interface layout with no logic to state.
