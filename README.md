# Subway trip classification of the `/kpi/trains` endpoint

This project models the core of `get_trains` in `app.py`. The handler reads
the real-time subway feed `NYCTFeed("2")`, which also carries trips of other
routes. It drops every trip on routes 4, 5, 6, 7 and GS. For each remaining
trip it builds an entry: the trip's summary, plus the arrival at Grand Army Plaza, Wall St,
34 St-Penn Station and 66 St-Lincoln Center when the trip has an update for
that stop. It appends the entry to the trip's direction bucket (`N` or `S`)
and sets that direction's "trains stopping at X" flags.

Two modules:

- `TrainsSpec` (`trains_spec.dfy`) describes the output record as values.
  `Step` is one trip, `Run` is the whole feed, and `EntryFor` and `Mark` are
  the stop-update loop. It also gives independent reference definitions:
  `Kept` (the trips that reach a direction, in feed order), `Mentions`,
  `StopsAt` and `ServedCount`. Lemmas connect the loop-shaped definitions to
  these references.
- `TrainsOutput` (`trains_output.dfy`) is the imperative form of the handler.
  `Bucket` is one direction's dictionary, with a `trips` sequence and four
  boolean flags. `Output` holds the two buckets. `AddTrip` is the body of the
  trip loop; it runs the `if/elif` stop-name chain and mutates the bucket in
  place. `GetTrains` runs the loop over the feed. Each method is proved to
  leave the objects in the state that `Step` or `Run` describes.

Modelling choices:

- The feed is an input `seq<Trip>`. A trip carries its route id, its
  direction, its string form (`summary`, which the feed library renders) and
  its stop-time updates.
- An arrival is an abstract type. The handler only copies it.
- A direction is the two-value datatype `Direction`. The feed library reports
  only `N` or `S`, the two keys of the output record.
- A station key missing from an entry dictionary is `None` in `Entry`.

## Model

| member | source | states |
|---|---|---|
| TrainsOutput.Bucket.constructor | app.py:16-29 | A direction bucket starts with an empty trip list and all four flags false. |
| TrainsOutput.Output.constructor | app.py:14-30 | The output record has exactly the buckets `N` and `S`, two distinct objects, each empty with every flag false (equal to `Initial()`). |
| TrainsOutput.Output.AddTrip | app.py:34-53 | Processing one trip in place leaves the record equal to `Step` of the old record. The other direction's bucket is unchanged. |
| TrainsOutput.GetTrains | app.py:32-54 | After the loop over the feed, the fresh output record equals `Run(Initial(), feed)`. |
| TrainsSpec.Initial | app.py:14-30 | Both directions start with an empty trip list and every flag false. |
| TrainsSpec.Excluded | app.py:37 | A route is excluded iff it is one of `4`, `5`, `6`, `7` or `GS`. Its consequences are stated by `Step` and `ExcludedTripIgnored`. |
| TrainsSpec.Classify | app.py:40-51 | The `if/elif` dispatch of a stop name to one of the four stations, or to none. `ClassifyDispatch` states it: the result is station `s` exactly when the name is `s`'s name. |
| TrainsSpec.ClassifyDispatch | app.py:40-51 | The `if/elif` chain sends a stop name to station `s` exactly when the name is `s`'s name. |
| TrainsSpec.FreshEntry | app.py:34-36 | A new entry holds the trip's summary and no arrival field. |
| TrainsSpec.Record | app.py:39-51 | One update sets at most one arrival field: the field of the station it is dispatched to. Every other field and the summary stay as they were. |
| TrainsSpec.EntryFor | app.py:34-51 | However many updates are processed, the entry's summary is the trip's string form. |
| TrainsSpec.Mark | app.py:40-51 | Processing updates never lowers a flag that was already set. |
| TrainsSpec.Step | app.py:37-53 | An excluded trip changes nothing. Any other trip appends exactly its own entry to its direction's list. The other direction is unchanged, and no flag is lowered. |
| TrainsSpec.Run | app.py:33-53 | The trip loop over the feed, in feed order. Its properties are stated by `TripsInFeedOrder` (each direction's list), `FlagRaisedIff` (the flags) and `OneEntryPerServedTrip` (one entry per served trip). |
| TrainsSpec.LastArrivalWins | app.py:39-51 | A station's arrival field is absent iff no update names the station. Otherwise it holds the arrival of the last update that names it. |
| TrainsSpec.MarkRaises | app.py:40-51 | After the update loop, a station's flag is set iff it was set before or some update names the station. |
| TrainsSpec.KeptMembers | app.py:33-37 | A trip reaches direction `d`'s list iff it is in the feed, its route is not excluded, and it travels in `d`. |
| TrainsSpec.TripsInFeedOrder | app.py:33-53 | Direction `d`'s trip list has one entry per kept trip of `d`, in feed order, and the `i`-th entry is built from the `i`-th kept trip. |
| TrainsSpec.SummariesMatchTrips | app.py:34-53 | Each entry's `summary` is the string form of the trip it was built from. |
| TrainsSpec.OneEntryPerServedTrip | app.py:33-53 | The two lists together hold exactly one entry per trip whose route is not excluded. |
| TrainsSpec.ExcludedTripIgnored | app.py:37 | Removing a trip on routes 4, 5, 6, 7 or GS from anywhere in the feed leaves the output unchanged. |
| TrainsSpec.FlagsMonotone | app.py:40-51 | Once set, a flag stays true for the rest of the feed. |
| TrainsSpec.FlagRaisedIff | app.py:37-51 | After any run, a flag is set iff it was set at the start or some kept trip of that direction has an update naming the station. |
| TrainsSpec.TrainsStoppingAt | app.py:14-51 | Starting from the initial record, `trains_stopping_at_X` of a direction is true iff some non-excluded trip of that direction has an update named for X. |

## Left out

- Flask application setup, routing and the `hello_world` endpoint (app.py:1-8): these are HTTP plumbing.
- The `NYCTFeed("2")` fetch and GTFS-realtime decoding (app.py:2, 32): this is a foreign library doing network I/O. The model takes the decoded trips as its input sequence.
- The `debug` field (app.py:15): it counts the trips of a second, independent fetch of the feed, so its value is not a function of the trips the loop processes.
- Arrival values and the text of `str(trip)`: the handler copies them and never computes them. `Arrival` is abstract, and the summary comes with the input trip.
- A direction other than `N`/`S`: the output record has no other key, so such a trip would fail with a missing-key error. The feed library does not produce one, and `Direction` has only two values.
- The entry dictionary built for an excluded trip: it is built and then discarded, so it has no observable effect.
- JSON serialisation of the returned record by the web framework.
