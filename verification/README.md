# Navitia core, modelled in Dafny

This project models the core of Navitia, a public-transport journey planner, as pure Dafny functions and lemmas. It covers these parts:

- **The realtime disruption engine** (`kraken/apply_disruption.cpp`). It applies a disruption's impacts to the timetable and deletes them again. Applying an impact can cancel a meta vehicle journey (meta trip), reschedule it, cut a line section out of it, or close a stop point or stop area. Deleting an impact resets the meta trips it touched and replays the other impacts that still modify them, in (update time, uri) order.
- **The data it works on**:
  - validity patterns (`type/type.cpp`, `type/data.h`);
  - the disruption vocabulary and registry (`type/message.h`);
  - the public-transport index relations (`type/pt_data.cpp`);
  - the test-data builder that creates journeys, frequencies, blocks and severities (`ed/build_helper.cpp`).
- **The public-transport referential query language** (`ptreferential/ptreferential_ng.cpp`):
  - the grammar as a recursive-descent parser;
  - the evaluator of a parsed filter over the index sets;
  - `make_request`, which wraps a request with line, period and forbidden-id filters.
- **Python services**:
  - the log reader of `launch_exec`;
  - the compact-timestamp parser;
  - the shared request parameters of the interfaces;
  - the geocoding serializer's fields;
  - the tyr admin resources for POI types, instances, users, traveler-type checks and dataset deletion;
  - the schema tests' error-flattening helper.

Side effects become values. A visitor that mutates the timetable is a function from an engine state to a new state. A C++ exception or a Python `raise` is the `Err` case of a `Result`. Helpers whose code is not part of this model are parameters: Boost date parsing, `lexical_cast`, the headsign and geometry indexes, and the meta trip's own `cancel_vj`/`create_discrete_vj`/`get_vp_of_sp`.

Module layout, one module per source file or component:

| file | module | models |
|---|---|---|
| wrappers.dfy | Wrappers | `Option` and `Result` |
| text.dfy | Text | digits, decimal rendering, Python's `int()` and `strip()` |
| string_order.dfy | StringOrder | lexicographic string order, Python's `min`/`max` |
| validity_pattern.dfy | ValidityPattern | `ValidityPattern`, bitset operators, `get_difference` |
| schedule.dfy | Schedule | realtime levels, stop times, impact lists |
| message.dfy | Message | `Effect`, `ChannelType`, `Property`, `Status`, `DisruptionHolder` |
| pt_data.dfy | PtIndex | `get_target_by_source`, `get_all_index`, `build_connections` |
| engine_state.dfy | EngineState | trips, meta trips, topology, and the unseen helpers as parameters |
| apply_disruption.dfy | ApplyDisruption | the add and delete visitors, `apply_disruption`, `delete_disruption` |
| disruption_properties.dfy | DisruptionProperties | what applying and deleting does to a meta trip |
| build_helper.dfy | BuildHelper | `VJ`, `Impacter::severity`, `build_blocks`, `finish` |
| ptref_grammar.dfy | PtRefGrammar | the filter grammar and `parse` |
| ptref_roundtrip.dfy | PtRefRoundTrip | printing a filter and reading it back |
| ptref_request.dfy | PtRefRequest | `odt_level`, `from_datetime`, `make_request` |
| ptref_eval.dfy | PtRefEval | `Eval` |
| launch_exec.dfy | LaunchExec | `LogLine`, `parse_log`, the read loop of `launch_exec_traces` |
| timestamps.dfy | Timestamps | `str_to_time_stamp` |
| interfaces_common.dfy | InterfacesCommon | `odt_levels`, `pb_odt_level`, `handle_poi_infos` |
| geocode_json.dfy | GeocodeJson | the geocoding serializer's computed fields |
| tyr_resources.dfy | TyrResources | the tyr resources listed above |
| schema_errors.dfy | SchemaErrors | `collect_all_errors` |
| sequences.dfy | Sequences | order and repetition in lists: no duplicates, subsequences |
| visitor_properties.dfy | VisitorProperties | what the add visitor does to the meta trips of a line, route or stop point, and to the journeys it derives |
| closure_repeat.dfy | ClosureRepeat | closing a stop point again with the same impact |

## Model

| member | source | states |
|---|---|---|
| ValidityPattern.IsValidRange | source/type/type.cpp:12-23 | A day is valid exactly when it lies in 0..366. |
| ValidityPattern.Add | source/type/type.cpp:29-37 | Adding a valid day makes it active and leaves every other day as it was. An invalid day leaves the pattern unchanged. |
| ValidityPattern.Remove | source/type/type.cpp:39-47 | Removing a day leaves it inactive and every other day as it was. An invalid day leaves the pattern unchanged. |
| ValidityPattern.Check | source/type/type.cpp:53-63 | A day is reported active exactly when it is valid and set. |
| ValidityPattern.DateOverloads | source/type/type.cpp:29-63 | The date overloads act on the day `date - beginning`. Adding a date in range makes it checked and removing it unchecks it. A date out of range changes nothing and is never checked. |
| ValidityPattern.AddRemoveLocal | source/type/type.cpp:29-47 | Adding or removing one day leaves every other day's state as it was. |
| ValidityPattern.Str | source/type/type.cpp:49-51 | The rendering has one character per bit, highest day first. |
| ValidityPattern.StrSuffix | source/type/type.cpp:49-51 | The k-th character from the right is '1' exactly when day k is active. |
| ValidityPattern.And | source/type/data.h:293-297 | Bitwise and is set intersection. |
| ValidityPattern.Or | source/kraken/apply_disruption.cpp:356-439 | Bitwise or is set union. |
| ValidityPattern.Xor | source/type/data.h:293-297 | Bitwise xor is the symmetric difference. |
| ValidityPattern.ShiftRight | source/ed/build_helper.cpp:155-177 | Right shift by n moves day x+n to day x and drops the lowest n days. |
| ValidityPattern.ShiftRightDistributes | source/kraken/apply_disruption.cpp:356-439 | Shifting distributes over union and intersection. |
| ValidityPattern.GetDifference | source/type/data.h:293-297 | The result holds exactly the calendar's days that the journey lacks. |
| ValidityPattern.GetDifferenceLimits | source/type/data.h:293-297 | A calendar minus itself is empty, and minus nothing is itself. |
| StringOrder.StrictTotal | source/kraken/apply_disruption.cpp:523-529 | The lexicographic order on uris is irreflexive, asymmetric, transitive and total. |
| StringOrder.Min | source/jormungandr/jormungandr/interfaces/v1/serializer/geocode_json.py:105 | Python's `min` returns an element of the list that no element is below. |
| StringOrder.Max | source/jormungandr/jormungandr/interfaces/v1/serializer/geocode_json.py:105 | Python's `max` returns an element of the list that no element is above. |
| Text.NatToString | source/kraken/apply_disruption.cpp:309-312 | The decimal rendering is non-empty and all digits. |
| Text.ParseInt | source/jormungandr/jormungandr/interfaces/v1/serializer/geocode_json.py:113 | Blank text is refused; `Text.ParseRendered` reads back every rendered count. |
| Text.ParseRendered | source/jormungandr/jormungandr/interfaces/v1/serializer/geocode_json.py:113 | Reading back the decimal rendering of a count gives the count. |
| Schedule.LevelName | source/kraken/apply_disruption.cpp:309-312 | Level names are non-empty. |
| Schedule.LevelNameInjective | source/kraken/apply_disruption.cpp:309-312 | Distinct levels have distinct names, so derived journey uris of different levels differ. |
| Schedule.ShiftTimes | source/ed/build_helper.cpp:155-177 | A shifted stop keeps its stop point and moves all four times by the same amount. |
| Schedule.PushUnique | source/kraken/apply_disruption.cpp:195-260 | The impact is listed afterwards. A listed impact leaves the list unchanged; a new one is appended at the end. |
| Schedule.RemoveAll | source/kraken/apply_disruption.cpp:550-589 | Exactly the other impacts remain, and the list does not grow. |
| Message.EffectFromString | source/type/message.h:102-113 | A name gives the effect bearing it. Any other string is refused with "unhandled effect case". |
| Message.EffectRoundTrip | source/type/message.h:86-113 | Every effect survives rendering and parsing. A string that names no effect is refused. |
| Message.EffectNameInjective | source/type/message.h:86-100 | Distinct effects have distinct names. |
| Message.ChannelNameInjective | source/type/message.h:115-129 | Distinct channel types have distinct names. |
| Message.PropertyLessStrictTotal | source/type/message.h:132-141 | The property order is a strict total order, so a set keeps each distinct property once. |
| Message.StatusOrder | source/type/message.h:245-269 | Statuses are totally ordered in declaration order, from UNCHANGED to DELAYED. |
| Message.PopDisruption | source/type/message.h:413 | Popping returns the registered disruption and unregisters it, so the count drops by one. An unknown uri yields nothing and changes nothing. |
| Message.CleanWeakImpacts | source/type/message.h:417 | Only references to impacts that still exist are kept, in order. The disruptions are untouched. |
| PtIndex.GetTargetByOneSource | source/type/pt_data.cpp:70-99 | The invalid index gives nothing. Same kinds give the index itself. Otherwise it gives the object's related indexes, and kinds outside the switch give nothing. |
| PtIndex.GetTargetBySource | source/type/pt_data.cpp:58-68 | The result concatenates each source index's targets, in input order. |
| PtIndex.SameKindIsIdentity | source/type/pt_data.cpp:58-99 | When the kinds agree, the valid indexes come back unchanged and in order. |
| PtIndex.GetAllIndex | source/type/pt_data.cpp:101-127 | A countable kind with n objects gives 0..n-1. Any other kind gives nothing. |
| PtIndex.BuildConnections | source/type/pt_data.cpp:230-242 | Each connection is typed, and each stop point's list gains, in order, the connections departing from it. |
| EngineState.AppendAt | source/kraken/apply_disruption.cpp:57-96 | The handle is appended under its key and every other key's list is unchanged. |
| EngineState.MvjsOfRoute | source/kraken/apply_disruption.cpp:141-153 | Exactly the meta trips with a journey on the route are listed, in `meta_vjs` order (a subsequence of it), with no repeat when that order has none. |
| ApplyDisruption.ComputeBaseDisruptedVp | source/kraken/apply_disruption.cpp:159-171 | A day is kept exactly when some application period starts on it within the production period. |
| ApplyDisruption.KeptStops | source/kraken/apply_disruption.cpp:263-330 | The derived stop list holds exactly the stops outside the closed set, shifted by the day shift, is no longer than the old list, and is empty exactly when every stop is closed. |
| ApplyDisruption.KeptStopsOne | source/kraken/apply_disruption.cpp:449-461 | One stop is dropped when closed, and otherwise kept with its four times moved by the day shift. |
| ApplyDisruption.KeptStopsAppend | source/kraken/apply_disruption.cpp:449-461 | The kept stops of two lists joined are the kept stops of the first followed by those of the second, so the derived list keeps the old order. |
| ApplyDisruption.ConcatenateImpactUris | source/kraken/apply_disruption.cpp:173-183 | Every live impact's disruption uri occurs in the text. |
| ApplyDisruption.ImpactUrisShape | source/kraken/apply_disruption.cpp:173-183 | No impact gives the empty text. One more impact appends ":" and its disruption uri when it is live and the uri does not yet occur in the text, and appends nothing otherwise. |
| ApplyDisruption.ImpactUrisSkipContained | source/kraken/apply_disruption.cpp:177 | The skip is a substring test, so disruptions "d10" then "d1" give ":d10". |
| ApplyDisruption.AppendUrisCovers | source/kraken/apply_disruption.cpp:173-183 | The loop leaves every live impact's disruption uri in the text. |
| ApplyDisruption.SpUnion | source/kraken/apply_disruption.cpp:356-439 | A day is in the union exactly when the journey calls at the stop point on it during some period. |
| ApplyDisruption.Mark | source/kraken/apply_disruption.cpp:195-260 | Only the meta trip's `modified_by` changes, gaining the impact once; journeys and other meta trips are untouched. |
| ApplyDisruption.CreateVjFromOldVj | source/kraken/apply_disruption.cpp:57-96 | The new journey belongs to the meta trip at the level, runs on the given days and borrows the old journey's route, company and properties. It takes the first base journey's mode and name, or else the first physical mode and its own uri. Only the new journey's mode, name and attributes are set afterwards; every other journey is as the creation left it. |
| ApplyDisruption.WithBaseDurations | source/kraken/apply_disruption.cpp:235-242 | Replacement stops keep the base stop's boarding and alighting durations when there is one. |
| ApplyDisruption.AddMetaVj | source/kraken/apply_disruption.cpp:195-260 | Topology, impacts, registry and informed-object lists are unchanged. An inert impact or an unknown trip changes nothing. NO_SERVICE cancels the journeys and records the impact. Other effects without stop times change nothing. |
| ApplyDisruption.Reschedule | source/kraken/apply_disruption.cpp:201-254 | Topology, impacts, registry and informed-object lists are unchanged. |
| ApplyDisruption.Rescheduled | source/kraken/apply_disruption.cpp:228-242 | The journey takes the impact's company when it exists, else keeps its attributes. Its stops keep the base durations, and nothing else changes. |
| ApplyDisruption.AddMvjs | source/kraken/apply_disruption.cpp:195-260 | Topology, impacts, registry and informed-object lists are unchanged. |
| ApplyDisruption.AddRoute | source/kraken/apply_disruption.cpp:141-153 | Topology, impacts, registry and informed-object lists are unchanged, and an inert impact changes nothing. |
| ApplyDisruption.AddRoutes | source/kraken/apply_disruption.cpp:133-139 | Topology, impacts, registry and informed-object lists are unchanged, and an inert impact changes nothing. |
| ApplyDisruption.AddLines | source/kraken/apply_disruption.cpp:125-131 | Topology, impacts, registry and informed-object lists are unchanged, and an inert impact changes nothing. |
| ApplyDisruption.SectionPlan | source/kraken/apply_disruption.cpp:263-330 | The leftover journey keeps the stops outside the section and runs on the section's days that the journey also runs. Its uri names the level, the count and the disruption. |
| ApplyDisruption.AddImpactedVj | source/kraken/apply_disruption.cpp:290-330 | Topology, impacts, registry and informed-object lists are unchanged. |
| ApplyDisruption.AddImpactedVjs | source/kraken/apply_disruption.cpp:263-330 | Topology, impacts, registry and informed-object lists are unchanged. |
| ApplyDisruption.AddLineSection | source/kraken/apply_disruption.cpp:263-330 | Topology, impacts, registry and informed-object lists are unchanged. Only NO_SERVICE changes anything. |
| ApplyDisruption.Candidates | source/kraken/apply_disruption.cpp:356-439 | Each candidate is a journey the closure hits, with its calls at the stop point shifted back by its day shift. Their order is stated by `VisitorProperties.CandidatesInOrder`. |
| ApplyDisruption.ClosurePlan | source/kraken/apply_disruption.cpp:442-487 | The leftover journey drops exactly the closed stop and runs only on the candidate's days that the journey also runs. |
| ApplyDisruption.AddClosure | source/kraken/apply_disruption.cpp:442-487 | Topology, impacts, registry and informed-object lists are unchanged. |
| ApplyDisruption.AddClosures | source/kraken/apply_disruption.cpp:442-487 | Topology, impacts, registry and informed-object lists are unchanged. |
| ApplyDisruption.AddStopPoint | source/kraken/apply_disruption.cpp:332-488 | Topology, impacts, registry and informed-object lists are unchanged. Only NO_SERVICE and DETOUR change anything. |
| ApplyDisruption.AddStopPoints | source/kraken/apply_disruption.cpp:490-497 | Topology, impacts, registry and informed-object lists are unchanged. |
| ApplyDisruption.AddEntity | source/kraken/apply_disruption.cpp:98-497 | Topology, impacts, registry and informed-object lists are unchanged, and an inert impact changes nothing. |
| ApplyDisruption.AddEntities | source/kraken/apply_disruption.cpp:515-516 | Topology, impacts, registry and informed-object lists are unchanged, and an inert impact changes nothing. |
| ApplyDisruption.ApplyImpact | source/kraken/apply_disruption.cpp:500-519 | Topology, impacts, registry and informed-object lists are unchanged. An unknown impact or a non-modifying effect changes nothing. |
| ApplyDisruption.ApplyDisruption | source/kraken/apply_disruption.cpp:675-683 | Topology, impacts, registry and informed-object lists are unchanged. A disruption whose impacts are all inert changes nothing. |
| ApplyDisruption.ApplyImpacts | source/kraken/apply_disruption.cpp:675-683 | Topology, impacts, registry and informed-object lists are unchanged. |
| ApplyDisruption.CompStrictWeakOrder | source/kraken/apply_disruption.cpp:523-529 | `comp` is a strict weak order whose equivalence is equality of (update time, uri). |
| ApplyDisruption.Insert | source/kraken/apply_disruption.cpp:523-529 | Nothing is lost or invented. An impact with that key is present afterwards, and a new key brings the impact itself. |
| ApplyDisruption.InsertOrdered | source/kraken/apply_disruption.cpp:523-529 | Inserting keeps the collection ordered. |
| ApplyDisruption.InsertPresent | source/kraken/apply_disruption.cpp:523-529 | An impact whose (update time, uri) key is already collected leaves the ordered collection unchanged. |
| ApplyDisruption.InsertFront | source/kraken/apply_disruption.cpp:523-529 | An impact below the first element is below all of them and shares no key. |
| ApplyDisruption.Collect | source/kraken/apply_disruption.cpp:550-589 | The collection stays ordered and loses nothing. It gains only live impacts of the list, and every live impact's key ends up in it. |
| ApplyDisruption.Reset | source/kraken/apply_disruption.cpp:550-589 | Base journeys run again at every level on their base days. Derived journeys run on no day. Nothing but days changes. |
| ApplyDisruption.Cleared | source/kraken/apply_disruption.cpp:550-589 | The journeys are reset and the impact is dropped from the meta trip. `modified_by` is emptied, and other meta trips are unchanged. |
| ApplyDisruption.DeleteMvj | source/kraken/apply_disruption.cpp:550-589 | The trip is cleared and cleaned up. Exactly the other live impacts modifying it are collected, and an unknown trip changes nothing. |
| ApplyDisruption.Unlink | source/kraken/apply_disruption.cpp:591-626 | The impact leaves exactly one object's list. Other lists, trips and the collection are untouched. |
| ApplyDisruption.DeleteMatching | source/kraken/apply_disruption.cpp:591-640 | Topology, impacts, registry and informed-object lists are unchanged, and the collection stays ordered. |
| ApplyDisruption.DeleteStopPoint | source/kraken/apply_disruption.cpp:591-604 | Topology, impacts, registry and informed-object lists are unchanged, and the collection stays ordered. |
| ApplyDisruption.DeleteStopPoints | source/kraken/apply_disruption.cpp:606-611 | Topology, impacts, registry and informed-object lists are unchanged, and the collection stays ordered. |
| ApplyDisruption.DeleteMvjs | source/kraken/apply_disruption.cpp:613-626 | Topology, impacts, registry and informed-object lists are unchanged, and the collection stays ordered. |
| ApplyDisruption.DeleteRoutes | source/kraken/apply_disruption.cpp:613-626 | Topology, impacts, registry and informed-object lists are unchanged, and the collection stays ordered. |
| ApplyDisruption.DeleteLines | source/kraken/apply_disruption.cpp:613-626 | Topology, impacts, registry and informed-object lists are unchanged, and the collection stays ordered. |
| ApplyDisruption.DeleteEntity | source/kraken/apply_disruption.cpp:531-641 | Topology, impacts, registry and informed-object lists are unchanged, and the collection stays ordered. |
| ApplyDisruption.DeleteEntities | source/kraken/apply_disruption.cpp:643-653 | Topology, impacts, registry and informed-object lists are unchanged, and the collection stays ordered. |
| ApplyDisruption.OwnerOf | source/kraken/apply_disruption.cpp:657-673 | The disruption being deleted is still found for its own impacts. Other uris are found exactly when registered. |
| ApplyDisruption.Replay | source/kraken/apply_disruption.cpp:538-544 | Topology, impacts, registry and informed-object lists are unchanged, and an empty collection replays nothing. |
| ApplyDisruption.DeleteImpact | source/kraken/apply_disruption.cpp:643-653 | Topology, impacts and registry are unchanged. An unknown impact or a non-modifying effect changes nothing. |
| ApplyDisruption.DeleteImpacts | source/kraken/apply_disruption.cpp:657-673 | Topology, impacts and registry are unchanged. |
| ApplyDisruption.Release | source/kraken/apply_disruption.cpp:657-673 | Exactly the listed impacts cease to exist, and nothing else changes. |
| ApplyDisruption.DeleteDisruptionWith | source/kraken/apply_disruption.cpp:657-673 | The topology is unchanged and exactly the uri leaves the registry. Its impacts cease to exist, and only live references are kept. |
| ApplyDisruption.DeleteDisruptionAsWritten | source/kraken/apply_disruption.cpp:657-673 | Exactly the uri leaves the registry. An unknown uri only drops dead references. |
| ApplyDisruption.DeleteDisruption | source/kraken/apply_disruption.cpp:657-673 | Exactly the uri leaves the registry, and its impacts cease to exist. Only live references are kept, and an unknown uri with no dead references changes nothing. |
| DisruptionProperties.ResetRestores | source/kraken/apply_disruption.cpp:550-589 | The reset undoes any cancellation of a clean meta trip. |
| DisruptionProperties.ApplyCancelsMetaVj | source/kraken/apply_disruption.cpp:195-200 | A cancelling impact cancels the journeys, records itself, and changes nothing else. |
| DisruptionProperties.DeleteCancelsMetaVj | source/kraken/apply_disruption.cpp:538-589 | Deleting it clears the trip, collects the other live impacts and replays them. |
| DisruptionProperties.ApplySingle | source/kraken/apply_disruption.cpp:675-683 | A one-impact disruption applies its impact. |
| DisruptionProperties.ApplyPair | source/kraken/apply_disruption.cpp:675-683 | A two-impact disruption applies them in order. |
| DisruptionProperties.ApplyTwiceIsApplyOnce | source/kraken/apply_disruption.cpp:195-200 | Applying a cancelling disruption twice equals applying it once. |
| DisruptionProperties.ApplyThenDeleteRestores | source/kraken/apply_disruption.cpp:657-683 | Applying a one-impact cancellation and deleting it restores every journey and unmarks the trip. |
| DisruptionProperties.ApplyTwoCancels | source/kraken/apply_disruption.cpp:675-683 | Two cancelling impacts on a clean trip leave it cancelled and marked by both. |
| DisruptionProperties.DeleteOneOfTwo | source/kraken/apply_disruption.cpp:550-589 | Deleting one of two cancellations collects only the other, which belongs to the same disruption. |
| DisruptionProperties.DeleteFromCleanTrip | source/kraken/apply_disruption.cpp:643-653 | Deleting from a trip nothing modifies leaves its journeys as they are. |
| DisruptionProperties.Reapply | source/kraken/apply_disruption.cpp:538-544 | Reapplying the disruption to a restored trip cancels it by both impacts again. |
| DisruptionProperties.AsWrittenStep | source/kraken/apply_disruption.cpp:538-544 | As written, deleting either impact of a doubly-cancelled trip leaves it doubly cancelled. |
| DisruptionProperties.CorrectedFirstStep | source/kraken/apply_disruption.cpp:538-544 | Without the own-disruption replay, deleting the first impact restores the trip. |
| DisruptionProperties.CorrectedSecondStep | source/kraken/apply_disruption.cpp:643-653 | Deleting the second impact keeps the trip restored. |
| DisruptionProperties.DeleteDisruptionTrips | source/kraken/apply_disruption.cpp:657-673 | On the trips, deleting a disruption deletes its impacts in turn. |
| DisruptionProperties.DeleteCancelledAsWritten | source/kraken/apply_disruption.cpp:657-673 | As written, deleting a disruption whose two impacts cancel a trip leaves the trip cancelled. |
| DisruptionProperties.DeleteCancelledCorrected | source/kraken/apply_disruption.cpp:657-673 | Without the own-disruption replay, the same deletion restores the trip. |
| DisruptionProperties.DeleteTwoCancelsAsWritten | source/kraken/apply_disruption.cpp:538-544 | Applying then deleting, as written, leaves the trip cancelled by both impacts. |
| DisruptionProperties.DeleteTwoCancelsRestores | source/kraken/apply_disruption.cpp:657-683 | Applying then deleting, corrected, restores every journey and unmarks the trip. |
| DisruptionProperties.SectionCancelsInPlace | source/kraken/apply_disruption.cpp:290-330 | A section covering every stop cancels journeys in place: trips are kept and only days change. |
| VisitorProperties.CancelKeepsRoutes | source/kraken/apply_disruption.cpp:195-200 | A NO_SERVICE impact on one meta trip keeps the route index and every mark, and the meta trip records the impact. |
| VisitorProperties.MvjsMarked | source/kraken/apply_disruption.cpp:141-153 | Cancelling meta trips in turn marks each of them and loses no earlier mark. |
| VisitorProperties.RouteMarksEach | source/kraken/apply_disruption.cpp:141-153 | A NO_SERVICE impact on a route marks every meta trip with a journey on the route. |
| VisitorProperties.RoutesMarkEach | source/kraken/apply_disruption.cpp:133-139 | A NO_SERVICE impact on several routes marks every meta trip running on any of them. |
| VisitorProperties.LinesMarkEach | source/kraken/apply_disruption.cpp:125-131 | A NO_SERVICE impact on a network's lines marks every meta trip running on a route of any of them. |
| VisitorProperties.DerivedJourney | source/kraken/apply_disruption.cpp:57-96 | Deriving a journey adds one fresh journey with the asked uri, days and stops to the meta trip at the level, and keeps every other journey's stops and every mark. |
| VisitorProperties.ClosureDerives | source/kraken/apply_disruption.cpp:445-485 | Closing a stop point for one candidate adds a fresh journey of the meta trip at the level: the journey's other stops, shifted; the candidate's days that the journey runs; the journey's attributes; a uri under the meta trip's; and the impact recorded. |
| VisitorProperties.SectionDerives | source/kraken/apply_disruption.cpp:280-327 | Cutting a line section out of a journey that keeps a stop adds a fresh journey with the stops outside the section, on the section's days that the journey runs, under a uri extending the journey's, and records the impact. |
| VisitorProperties.RescheduleDerives | source/kraken/apply_disruption.cpp:201-254 | A rescheduling impact adds a fresh realtime journey named after the meta trip, the realtime count and the disruption, on the base days the periods start on, with the updates' stops and base durations, and records the impact. |
| VisitorProperties.CandidatesInOrder | source/kraken/apply_disruption.cpp:356-442 | The closure's candidates come in journey order, each journey at most once when the order lists it once. |
| VisitorProperties.ClosuresAvoid | source/kraken/apply_disruption.cpp:445-485 | After all candidates, every journey is an earlier one with its stops or one that does not call at the closed stop. No meta trip or mark is lost. |
| ClosureRepeat.Later | source/kraken/apply_disruption.cpp:440 | A day is in the moved pattern exactly when it lies the shift after a day of the pattern. |
| ClosureRepeat.SpUnionShrinks | source/kraken/apply_disruption.cpp:397-399 | A journey with the same stops and shift on fewer days calls at the stop point on no new day, and only on its own days. |
| ClosureRepeat.CandidateFreed | source/kraken/apply_disruption.cpp:440-475 | Once its derived journey exists, a candidate runs on none of the days it called at the closed stop point. |
| ClosureRepeat.ClosureStep | source/kraken/apply_disruption.cpp:444-485 | Deriving a candidate's journey keeps the meta trips, adds one journey that skips the stop point, keeps the others' stops, gives no journey a new day, and frees the planned days of the candidate. |
| ClosureRepeat.ClosuresProgress | source/kraken/apply_disruption.cpp:444-485 | After the loop over the candidates, every journey is a derived one avoiding the stop point, or an old one with its stops, on fewer days, and no longer on any closed day if it was a candidate. |
| ClosureRepeat.NoHitNoCandidates | source/kraken/apply_disruption.cpp:356-402 | When no journey runs on an impact day and calls at the stop point in a period, there is no candidate. |
| ClosureRepeat.NothingLeftToClose | source/kraken/apply_disruption.cpp:356-402 | After one closure, no journey is a candidate any more. |
| ClosureRepeat.StopPointTwiceIsOnce | source/kraken/apply_disruption.cpp:332-488 | Closing a stop point a second time with the same impact leaves the data as the first closure left it. |
| ClosureRepeat.ApplyThroughStopPoint | source/kraken/apply_disruption.cpp:675-683 | A one-impact disruption closing a stop point is the stop-point case of the visitor. |
| ClosureRepeat.ApplyClosureTwiceIsOnce | source/kraken/tests/apply_disruption_test.cpp:625-663 | Applying a stop-point closure again, any number of times, changes nothing after the first. |
| VisitorProperties.StopPointNeverServed | source/kraken/apply_disruption.cpp:332-488 | Closing a stop point leaves every journey as it was in its stops or not calling there. No meta trip or mark is lost. |
| Sequences.SubseqNoDup | source/kraken/apply_disruption.cpp:141-153 | A subsequence has only elements of the sequence, and no repeat when the sequence has none. |
| BuildHelper.MakeStopTime | source/ed/build_helper.cpp:270-333 | A departure of -1 means the arrival. The durations and the pick-up and drop-off flags are the given ones. |
| BuildHelper.MakeStopTimeFromText | source/ed/build_helper.cpp:252-267 | No departure text means the arrival time, and the durations are the given ones. |
| BuildHelper.MinEarliest | source/ed/build_helper.cpp:155-177 | The minimum is some stop's earliest time and no stop's is smaller. |
| BuildHelper.DayShift | source/ed/build_helper.cpp:155-177 | The shift is 1 exactly when some stop's earliest time is negative. |
| BuildHelper.PrepareTrip | source/ed/build_helper.cpp:155-177 | A trip boarding before midnight runs a day earlier, with every time 24h later; otherwise nothing changes. |
| BuildHelper.FrequencyEnd | source/ed/build_helper.cpp:182-188 | The end is a whole number of headways after the start, within the window, less than a headway short of it, and in unsigned 32-bit range. |
| BuildHelper.WholeHeadways | source/ed/build_helper.cpp:185-186 | A whole number of headways fits in the window with less than one to spare. |
| BuildHelper.FrequencyEndRoundsDown | source/ed/build_helper.cpp:185-186 | A window that is not whole headways ends before the given end. |
| BuildHelper.Make | source/ed/build_helper.cpp:76-242 | The first call appends one journey with its uri; later calls return it and change nothing. |
| BuildHelper.MakeMemoised | source/ed/build_helper.cpp:76-242 | Calling `make` twice returns the same journey and creates nothing new. |
| BuildHelper.SeverityForEffect | source/ed/build_helper.cpp:432-461 | A live pooled severity is reused; otherwise a new one is registered with the given fields. |
| BuildHelper.SeverityReused | source/ed/build_helper.cpp:432-461 | Asking twice returns the same severity and leaves the pool unchanged. |
| BuildHelper.SeverityByUri | source/ed/build_helper.cpp:464-472 | An unregistered uri raises; an expired one gives null; a live one gives its severity. |
| BuildHelper.SeverityRegisteredThenFound | source/ed/build_helper.cpp:432-472 | A severity registered by effect can be fetched by its uri. |
| BuildHelper.OnLineSection | source/ed/build_helper.cpp:484-505 | The section keeps its endpoints and the resolvable routes, in order. |
| BuildHelper.ImpactUris | source/ed/build_helper.cpp:530-538 | The single impact bears the disruption's uri. |
| BuildHelper.LinkPair | source/ed/build_helper.cpp:739-768 | One step links a to b and changes nothing else. |
| BuildHelper.LinkBlock | source/ed/build_helper.cpp:739-768 | Each journey of a block is preceded by the one before and followed by the one after it, in sorted order; the block's outer links, other journeys and every stop time are kept. |
| BuildHelper.FinishVj | source/ed/build_helper.cpp:787-797 | Nobody alights at the first stop or boards at the last, unless the journey is linked on that side. |
| BuildHelper.FinishAll | source/ed/build_helper.cpp:784-797 | `finish` treats every journey. |
| BuildHelper.BlockKeepsTransfers | source/ed/build_helper.cpp:739-797 | Inside a block, transfers stay possible at the inner ends. |
| BuildHelper.RebaseFrequency | source/ed/build_helper.cpp:799-816 | Times become offsets from the earliest time, and the window moves back when it opened late. |
| PtRefGrammar.SkipSpaces | source/ptreferential/ptreferential_ng.cpp:270-276 | The skipper returns a suffix of its input. |
| PtRefGrammar.Lit | source/ptreferential/ptreferential_ng.cpp:58-92 | A literal matches exactly when it prefixes the skipped input. |
| PtRefGrammar.Ident | source/ptreferential/ptreferential_ng.cpp:94 | An identifier is a letter followed by identifier characters, and consumes input. |
| PtRefGrammar.BareStr | source/ptreferential/ptreferential_ng.cpp:95 | The unquoted form is one or more string characters. |
| PtRefGrammar.QuotedBody | source/ptreferential/ptreferential_ng.cpp:96 | The quoted body stops at an unescaped quote or fails hard. |
| PtRefGrammar.Str | source/ptreferential/ptreferential_ng.cpp:95-96 | A string match consumes input. |
| PtRefGrammar.Args | source/ptreferential/ptreferential_ng.cpp:61 | The optional argument list never fails softly. |
| PtRefGrammar.FunCall | source/ptreferential/ptreferential_ng.cpp:61 | A match consumes input and yields a function call. |
| PtRefGrammar.Cmp | source/ptreferential/ptreferential_ng.cpp:62-66 | A match consumes input and yields a one-argument call. |
| PtRefGrammar.DWithin | source/ptreferential/ptreferential_ng.cpp:67-79 | A match consumes input and yields the `within` call. |
| PtRefGrammar.Pred | source/ptreferential/ptreferential_ng.cpp:58-60 | The first matching alternative wins and consumes input. |
| PtRefGrammar.GetCorr | source/ptreferential/ptreferential_ng.cpp:81 | A match consumes input. |
| PtRefGrammar.Leaf | source/ptreferential/ptreferential_ng.cpp:82 | A match consumes input. |
| PtRefGrammar.DiffExpr | source/ptreferential/ptreferential_ng.cpp:83-85 | A match consumes input. |
| PtRefGrammar.AndExpr | source/ptreferential/ptreferential_ng.cpp:86-88 | A match consumes input. |
| PtRefGrammar.OrExpr | source/ptreferential/ptreferential_ng.cpp:89-92 | A match consumes input. |
| PtRefGrammar.Parse | source/ptreferential/ptreferential_ng.cpp:270-285 | A request parses exactly when one expression covers it up to trailing blanks. Otherwise it is a global error or a partial error naming the rest. |
| PtRefRoundTrip.QuoteOf | source/ptreferential/ptreferential_ng.cpp:96 | Every string survives quoting and the quoted form of `str`. |
| PtRefRoundTrip.LeafRoundTrip | source/ptreferential/ptreferential_ng.cpp:82 | Every printable leaf is read back from its text. |
| PtRefRoundTrip.DiffRoundTrip | source/ptreferential/ptreferential_ng.cpp:83-85 | Every printable `-` chain is read back from its text. |
| PtRefRoundTrip.AndRoundTrip | source/ptreferential/ptreferential_ng.cpp:86-88 | Every printable `AND` chain is read back from its text. |
| PtRefRoundTrip.OrRoundTrip | source/ptreferential/ptreferential_ng.cpp:89-92 | Every printable `OR` chain is read back from its text. |
| PtRefRoundTrip.ParseShow | source/ptreferential/ptreferential_ng.cpp:270-285 | Every printable filter parses back to itself. |
| PtRefRoundTrip.ParseRendered | source/ptreferential/ptreferential_ng.cpp:270-285 | A rendering parses to its expression, with or without leading blanks. |
| PtRefRoundTrip.ParseTrailing | source/ptreferential/ptreferential_ng.cpp:277-280 | Text after a whole expression is a partial error that quotes it. |
| PtRefRoundTrip.ParseBlank | source/ptreferential/ptreferential_ng.cpp:281-283 | A blank request is a global error. |
| PtRefRoundTrip.DiffUnderAnd | source/ptreferential/ptreferential_ng.cpp:83-88 | `-` binds tighter than `AND`. |
| PtRefRoundTrip.AndUnderOr | source/ptreferential/ptreferential_ng.cpp:86-91 | `AND` binds tighter than `OR`. |
| PtRefRoundTrip.RightNested | source/ptreferential/ptreferential_ng.cpp:83-85 | A chain of one operator nests to the right. |
| PtRefRequest.OdtLevelFromString | source/ptreferential/ptreferential_ng.cpp:129-139 | A level other than `all` is returned exactly for its name. |
| PtRefRequest.OdtLevelRoundTrip | source/ptreferential/ptreferential_ng.cpp:120-139 | Every level survives rendering and parsing; any other string gives `all`. |
| PtRefRequest.FromDatetime | source/ptreferential/ptreferential_ng.cpp:141-154 | Only text ending in 'Z' with a parsable rest is accepted; each failure is a partial error with its message. |
| PtRefRequest.ZuluRoundTrip | source/ptreferential/ptreferential_ng.cpp:141-154 | An instant's ISO text plus 'Z' reads back as that instant. |
| PtRefRequest.NoZuluRefused | source/ptreferential/ptreferential_ng.cpp:142-148 | Empty text and text not ending in 'Z' are refused with their messages. |
| PtRefRequest.BaseRequest | source/ptreferential/ptreferential_ng.cpp:295 | The empty request means `all`; any other is kept. |
| PtRefRequest.Restricted | source/ptreferential/ptreferential_ng.cpp:297-320 | Fails only for an uncaptioned period type; otherwise the request is kept or parenthesised and extended. |
| PtRefRequest.Kept | source/ptreferential/ptreferential_ng.cpp:322-325 | Exactly the ids of known type are kept. |
| PtRefRequest.ForbiddenFilters | source/ptreferential/ptreferential_ng.cpp:322-336 | Succeeds exactly when every known id has a caption, giving one filter per kept id. |
| PtRefRequest.ForbiddenFiltersErr | source/ptreferential/ptreferential_ng.cpp:327-332 | A failure names the first uncaptioned id. |
| PtRefRequest.MakeRequest | source/ptreferential/ptreferential_ng.cpp:287-350 | Fails exactly on an uncaptioned period type or an uncaptioned forbidden id. |
| PtRefRequest.EmptyRequestIsAll | source/ptreferential/ptreferential_ng.cpp:295 | The empty request builds the same filter as `all`. |
| PtRefRequest.MakeRequestParses | source/ptreferential/ptreferential_ng.cpp:287-350 | The built request parses to the intended conjunction and difference of filters. |
| PtRefEval.KindOf | source/ptreferential/ptreferential_ng.cpp:214 | An unknown caption is an out-of-range error. |
| PtRefEval.LinesWithCode | source/ptreferential/ptreferential_ng.cpp:175-179 | Exactly the lines with that code are selected. |
| PtRefEval.LinesAtLevel | source/ptreferential/ptreferential_ng.cpp:180-197 | Exactly the lines matching the named level are selected. |
| PtRefEval.PeriodBounds | source/ptreferential/ptreferential_ng.cpp:202-213 | since sets the lower bound, until the upper, between both, each read from its argument. |
| PtRefEval.JoinSplit | source/ptreferential/ptreferential_ng.cpp:226 | Joining the split pieces gives back the text. |
| PtRefEval.SplitJoin | source/ptreferential/ptreferential_ng.cpp:226 | Splitting joined separator-free pieces gives them back. |
| PtRefEval.WithinArgs | source/ptreferential/ptreferential_ng.cpp:216-232 | The distance and the two coordinates are read as numbers, else a partial error. |
| PtRefEval.WithinPointRoundTrip | source/ptreferential/ptreferential_ng.cpp:216-232 | "lon;lat" reads back as that point. |
| PtRefEval.CallIndexes | source/ptreferential/ptreferential_ng.cpp:167-244 | An unknown function raises with the call. |
| PtRefEval.Eval | source/ptreferential/ptreferential_ng.cpp:161-265 | When every `get_corresponding` gives objects of the kind asked for, any filter that evaluates selects only objects of the target kind. |
| PtRefEval.EvalCall | source/ptreferential/ptreferential_ng.cpp:245 | A call's indexes are mapped to the target type. |
| PtRefEval.Combine | source/ptreferential/ptreferential_ng.cpp:252-265 | The left operand's error wins, then the right's. |
| PtRefEval.EvalSetAlgebra | source/ptreferential/ptreferential_ng.cpp:161-166 | `AND`, `OR` and `-` are intersection, union and difference; `all` and `empty` give all and nothing. |
| PtRefEval.EvalErrors | source/ptreferential/ptreferential_ng.cpp:252-265 | An operand's error is the compound's error, left first. |
| PtRefEval.UnknownCallRefused | source/ptreferential/ptreferential_ng.cpp:240-244 | An unknown function is refused by name. |
| PtRefEval.EvalLaws | source/ptreferential/ptreferential_ng.cpp:252-265 | a - a is empty, a OR empty is a, and AND and OR commute. |
| PtRefEval.OrOfCovers | source/ptreferential/ptreferential_ng.cpp:337-347 | Each alternative's selection is within the disjunction's. |
| PtRefEval.ForbiddenNeverSelected | source/ptreferential/ptreferential_ng.cpp:322-347 | Objects matching a forbidden id never appear in the result. |
| PtRefEval.ForbiddenExcluded | source/ptreferential/ptreferential_ng.cpp:322-347 | Whatever the base filter, subtracting the forbidden ids' `OR` chain leaves nothing any of them selects. |
| PtRefEval.PeriodFilterSelects | source/ptreferential/ptreferential_ng.cpp:303-318 | The added period filter selects the objects active in the period. |
| PtRefEval.OdtFilterSelects | source/ptreferential/ptreferential_ng.cpp:298-301 | The added odt filter selects the lines of that level. |
| LaunchExec.Find | source/navitiacommon/navitiacommon/launch_exec.py:42-57 | `find` returns the first occurrence, or -1 when there is none. |
| LaunchExec.Level | source/navitiacommon/navitiacommon/launch_exec.py:42-57 | The level is one of the four logging levels. |
| LaunchExec.Message | source/navitiacommon/navitiacommon/launch_exec.py:42-57 | The message differs from the line exactly when " - " starts within the first ten characters. |
| LaunchExec.MessageIsTail | source/navitiacommon/navitiacommon/launch_exec.py:42-57 | The message is a suffix of the line. |
| LaunchExec.Partition | source/navitiacommon/navitiacommon/launch_exec.py:59-67 | The flag is set exactly when the text holds a newline; the pieces rebuild the text. |
| LaunchExec.Read | source/navitiacommon/navitiacommon/launch_exec.py:59-67 | The lines read are complete and non-empty, and lines plus rest rebuild the input. |
| LaunchExec.ParseLog | source/navitiacommon/navitiacommon/launch_exec.py:59-67 | One log per line read, and the unread rest returned. |
| LaunchExec.ReadComplete | source/navitiacommon/navitiacommon/launch_exec.py:59-67 | Complete lines followed by a tail are read back and the tail is kept. |
| LaunchExec.ReadStopsAtBlank | source/navitiacommon/navitiacommon/launch_exec.py:59-67 | An empty line ends the reading and what follows stays unread. |
| LaunchExec.NoNewlineKept | source/navitiacommon/navitiacommon/launch_exec.py:59-67 | Text without a newline is kept whole. |
| LaunchExec.ReadAppend | source/navitiacommon/navitiacommon/launch_exec.py:59-67 | Reading in two parts with the rest carried equals reading all at once. |
| LaunchExec.TracesAsWritten | source/navitiacommon/navitiacommon/launch_exec.py:102-110 | As written, every logged line is a complete line of a single read, and reads without a newline log nothing. |
| LaunchExec.TracesCarried | source/navitiacommon/navitiacommon/launch_exec.py:59-67 | With the leftover carried, output holding no newline logs nothing. Its equality with reading the whole output at once is `LaunchExec.CarriedIsWhole`. |
| LaunchExec.SplitLineBrokenAsWritten | source/navitiacommon/navitiacommon/launch_exec.py:107 | Discarding the rest loses a split line's head and logs its tail as ERROR. |
| LaunchExec.SplitLineWholeCarried | source/navitiacommon/navitiacommon/launch_exec.py:59-67 | Carrying the rest logs the split line once at INFO. |
| LaunchExec.CarriedIsWhole | source/navitiacommon/navitiacommon/launch_exec.py:86-118 | Carrying the rest, chunked output logs as the whole output would. |
| LaunchExec.TracesText | source/navitiacommon/navitiacommon/launch_exec.py:86-118 | The traces are empty exactly when nothing was logged. |
| Timestamps.MonthLengths | source/jormungandr/jormungandr/utils.py:34-49 | Cumulative month lengths agree with each month's length. |
| Timestamps.YearLength | source/jormungandr/jormungandr/utils.py:45-49 | Each year adds 365 or 366 days. |
| Timestamps.Parse | source/jormungandr/jormungandr/utils.py:34-43 | The model accepts only a real datetime written as eight digits, a 'T' in either case, and six digits. |
| Timestamps.StrToTimestamp | source/jormungandr/jormungandr/utils.py:34-49 | A timestamp exists exactly when the text parses. |
| Timestamps.ParseFormat | source/jormungandr/jormungandr/utils.py:34-43 | Every datetime's text parses back to it. |
| Timestamps.FormatParse | source/jormungandr/jormungandr/utils.py:34-43 | Every accepted text, with its separator in upper case, is the one spelling of its datetime. |
| Timestamps.NextDayAddsADay | source/jormungandr/jormungandr/utils.py:45-49 | The next calendar day is 86400 seconds later. |
| Timestamps.NextSecondAddsOne | source/jormungandr/jormungandr/utils.py:45-49 | Timestamps count seconds without gaps. |
| Timestamps.SameDay | source/jormungandr/jormungandr/utils.py:45-49 | A time of day counts seconds from midnight of its date. |
| Timestamps.EpochIsZero | source/jormungandr/jormungandr/utils.py:34-49 | The epoch is timestamp 0. |
| Timestamps.GeoveloTripDuration | source/jormungandr/jormungandr/street_network/tests/geovelo_test.py:359-360 | The tested trip lasts 3155 seconds. |
| Timestamps.MalformedRefused | source/jormungandr/jormungandr/utils.py:34-43 | The model refuses text that is not 15 characters long or has no 'T' or 't' after the date. |
| Timestamps.LowerCaseT | source/jormungandr/jormungandr/utils.py:40 | A lower-case 't' separator reads as the upper-case one. |
| Timestamps.LowerCaseTExample | source/jormungandr/jormungandr/utils.py:40 | "20161010t152000" is accepted as "20161010T152000". |
| Timestamps.February30Refused | source/jormungandr/jormungandr/utils.py:34-43 | An impossible date is refused. |
| InterfacesCommon.OdtLevelsAgree | source/jormungandr/jormungandr/interfaces/common.py:33-40 | The accepted names are exactly those with a backend level, and names and levels correspond one to one. |
| InterfacesCommon.HandlePoiInfos | source/jormungandr/jormungandr/interfaces/common.py:46-50 | `bss_stands` is added once when flagged and missing; counts are otherwise unchanged; the flag reports a known info. |
| InterfacesCommon.HandlePoiInfosIdempotent | source/jormungandr/jormungandr/interfaces/common.py:46-50 | Handling twice equals handling once. |
| InterfacesCommon.NeverDuplicated | source/jormungandr/jormungandr/interfaces/common.py:46-50 | `bss_stands` is never listed twice unless given twice. |
| GeocodeJson.CoordField | source/jormungandr/jormungandr/interfaces/v1/serializer/geocode_json.py:55-60 | Latitude and longitude are set exactly when there is a point. |
| GeocodeJson.CoordId | source/jormungandr/jormungandr/interfaces/v1/serializer/geocode_json.py:73-77 | The id is "lon;lat" exactly when there is a point. |
| GeocodeJson.CoordIdIsCoordField | source/jormungandr/jormungandr/interfaces/v1/serializer/geocode_json.py:55-77 | With agreeing renderings, the id joins the coordinate field's parts. |
| GeocodeJson.CoordIdReadBack | source/jormungandr/jormungandr/interfaces/v1/serializer/geocode_json.py:73-77 | An address id reads back, through the referential's `within`, as the same point. |
| GeocodeJson.ZipCodeAsWritten | source/jormungandr/jormungandr/interfaces/v1/serializer/geocode_json.py:99-105 | Absent when every code is empty, and the code itself when it is the only one. Otherwise the text is two of the codes joined by "-": one no greater than any code, empty ones included, and one no less than any. |
| GeocodeJson.ZipCodeEmptyLowerEnd | source/jormungandr/jormungandr/interfaces/v1/serializer/geocode_json.py:99-105 | ["", "75001"] gives "-75001". |
| GeocodeJson.ZipCode | source/jormungandr/jormungandr/interfaces/v1/serializer/geocode_json.py:99-105 | Corrected: empty codes are ignored. |
| GeocodeJson.ZipCodeBounds | source/jormungandr/jormungandr/interfaces/v1/serializer/geocode_json.py:99-105 | Corrected: the range runs from the least to the greatest real code. |
| GeocodeJson.LegacyAdmin | source/jormungandr/jormungandr/interfaces/v1/serializer/geocode_json.py:108-120 | An entry converts exactly when its key minus "level" reads as an integer. |
| GeocodeJson.LegacyAdmins | source/jormungandr/jormungandr/interfaces/v1/serializer/geocode_json.py:108-120 | All entries convert, in order, or one bad key fails them all. |
| GeocodeJson.LevelKeyRoundTrip | source/jormungandr/jormungandr/interfaces/v1/serializer/geocode_json.py:113 | The key "levelN" names level N. |
| GeocodeJson.GetComment | source/jormungandr/jormungandr/interfaces/v1/serializer/geocode_json.py:228-234 | The first comment's name, or null without comments. |
| GeocodeJson.EmbeddedTypes | source/jormungandr/jormungandr/interfaces/v1/serializer/geocode_json.py:255-262 | City and region render alike, as do street and house; the four embedded types are distinct. |
| GeocodeJson.GetPlaces | source/jormungandr/jormungandr/interfaces/v1/serializer/geocode_json.py:254-270 | The loop gives the places of the known features. |
| GeocodeJson.PlacesExactly | source/jormungandr/jormungandr/interfaces/v1/serializer/geocode_json.py:254-270 | A feature gives a place exactly when its type is known, in feature order. |
| GeocodeJson.Dedup | source/jormungandr/jormungandr/interfaces/v1/serializer/geocode_json.py:272-280 | Deduplication keeps exactly the same elements. |
| GeocodeJson.DedupOrder | source/jormungandr/jormungandr/interfaces/v1/serializer/geocode_json.py:272-280 | The result has no repeats and is ordered by first sighting. |
| GeocodeJson.AddPublishers | source/jormungandr/jormungandr/interfaces/v1/serializer/geocode_json.py:275-277 | Adding one feature's publishers to the list so far lists every publisher seen once, where it was first seen. |
| GeocodeJson.GetFeedPublishers | source/jormungandr/jormungandr/interfaces/v1/serializer/geocode_json.py:272-280 | The loop gives each publisher once, then BANO and OSM. |
| GeocodeJson.FeedPublishersShape | source/jormungandr/jormungandr/interfaces/v1/serializer/geocode_json.py:272-280 | BANO and OSM always end the list, and each earlier entry is a feature's and unrepeated. |
| TyrResources.PoiTypesMap | source/tyr/tyr/resources.py:125-130 | Succeeds exactly when ids are unique and new, mapping each to its name; otherwise a 400 names a repeated id. |
| TyrResources.UndefinedRule | source/tyr/tyr/resources.py:137-140 | Nothing exactly when every rule's type is defined, else the first that is not. |
| TyrResources.CheckPoiTypes | source/tyr/tyr/resources.py:111-147 | Accepted exactly when valid, unique, defining both required types and every rule's type; each refusal is a 400. |
| TyrResources.DuplicateIdRefused | source/tyr/tyr/resources.py:125-130 | A configuration defining an id twice is refused. |
| TyrResources.CheckResources | source/tyr/tyr/resources.py:814-821 | The handler runs exactly for an acceptable traveler type; else a 400 naming it. |
| TyrResources.PutShape | source/tyr/tyr/resources.py:512-537 | An absent shape or the empty object keeps the stored shape. |
| TyrResources.GetThenPutKeepsShape | source/tyr/tyr/resources.py:512-537 | Sending back the shape GET shows changes nothing. |
| TyrResources.GetInstances | source/tyr/tyr/resources.py:169-179 | Exactly the existing instances matching every given argument: a subsequence of all instances, in their order, with no repeat when the instances have none. |
| TyrResources.InstanceFilters | source/tyr/tyr/resources.py:169-179 | No argument lists all; `is_free=false` lists the private ones. |
| TyrResources.GetUsers | source/tyr/tyr/resources.py:389-431 | A truthy key looks up by token; otherwise users are filtered on truthy arguments. |
| TyrResources.FilterUsers | source/tyr/tyr/resources.py:421-431 | Exactly the users matching every truthy argument. |
| TyrResources.UserFalsyArgumentsIgnored | source/tyr/tyr/resources.py:421-431 | Empty or zero text and id arguments are no criterion. `block_until` is a datetime, always truthy, so it filters even at 0. |
| TyrResources.DeleteDataset | source/tyr/tyr/resources.py:1138-1154 | 404 exactly for a missing instance; otherwise 200, with a message saying whether any dataset of the kind was deleted. |
| SchemaErrors.IndexPath | source/jormungandr/tests/schema_tests.py:45-66 | An element path is key, '[', the index, then ']', and the index reads back. |
| SchemaErrors.Collect | source/jormungandr/tests/schema_tests.py:45-66 | Every collected path extends the key. |
| SchemaErrors.CollectAllErrors | source/jormungandr/tests/schema_tests.py:45-66 | Every path starts at the root ".". |
| SchemaErrors.CollectMatchesLeaves | source/jormungandr/tests/schema_tests.py:45-66 | Each collected message sits at its path in the tree, and every path of the tree is collected. |
| SchemaErrors.DefaultFactorySkipped | source/jormungandr/tests/schema_tests.py:45-66 | A `default_factory` member contributes nothing, wherever it sits. |
| SchemaErrors.ThreeLevels | source/jormungandr/tests/schema_tests.py:45-66 | A message three objects down lands at the concatenated path. |
| SchemaErrors.NestedPath | source/jormungandr/tests/schema_tests.py:204-225 | A message under `stop_schedules`, `date_times`, `additional_informations` and `type` is collected once, at a path ending with `additional_informations[0].type[0]`. |

## Left out

- Logging everywhere (LOG4CPLUS and Python `logging`): it has no effect on the state.
- The meta trip's own helpers are parameters of `EngineState.Collaborators`: `cancel_vj`, `get_vp_of_sp`, `create_discrete_vj`, `clean_up_useless_vjs`, `get_impacted_vehicle_journeys`, `get_base_stop_time` and `get_impact_vp`. Their code is not part of this model. Properties that depend on them take the needed behaviour as a named hypothesis.
- `push_unique_impact`, `remove_impact`, `pop_disruption` and `clean_weak_impacts` are modelled from their names and declarations; their bodies are not part of this model.
- The width of the year bitset is not part of this model. A pattern is a set of days within the valid range 0..366.
- Iterating a `std::set` of pointers happens in address order; the model uses the order of `meta_vjs` instead.
- `physical_modes` is taken as a list, and `ModeAndName` falls back to its first element.
- `print_quoted_string` is a parameter of `PtRefRequest.Naming`. The theorems assume `QuoteParses`, which `PtRefRoundTrip.QuoteIsRead` proves for the model's own quoting.
- `to_iso_string` and Boost's `from_iso_string` are parameters. The period text is given as already rendered.
- Floating point is left out. `lexical_cast<double>`, Python's `str` and `'{}'.format` on numbers are parameters.
- `type_by_caption` and `captionByType` are parameters. The caption table in `type/type.cpp` belongs to a different version and lacks `impact`.
- The evaluation order of `And` and `Diff` operands in C++ is unspecified; the model evaluates the left one first. This decides which of two errors surfaces.
- The message text of an unknown function uses `operator<<` on the call, whose code is not visible; the error carries the call itself.
- The headsign, impact, tag, name, code, geometry and period indexes of `Eval` are parameters of `PtRefEval.EvalData`.
- `PtRefGrammar.CallArgs` and `PtRefGrammar.CoordArgs` split the argument parts of `fun` and `dwithin` into their own rules. The accepted language is unchanged.
- Timestamps.Parse: `strptime` also accepts one-digit fields and a shorter text, for example "2016101T1520". The model refuses these: it reads only the fixed-width form that Navitia writes. `Timestamps.MalformedRefused` states the same narrower refusal.
- `launch_exec_traces` I/O is left out: process spawning, non-blocking reads, `select` and the exit code. The read loop is modelled over a given sequence of chunks.
- `LaunchExec.ParseLog` builds its log lines after reading all lines rather than interleaved; the result is the same.
- tyr's database, JSON schema validation and request parsing are left out. The schema verdict is a parameter `schemaError`, and a body that is not JSON is not modelled.
- tyr's `get_from_token`, the instance's `delete_dataset` and the acceptable traveler-type list are parameters; the list's Python rendering is a text parameter.
- Python dict iteration order is modelled as a sequence.
- `BuildHelper.FrequencyEnd`: the `std::ceil` receives an integer quotient and changes nothing, so the end rounds down.
- `Message.PopDisruption` and `Message.CleanWeakImpacts` are stated from the declarations only, because their definitions are not part of this model.
- ApplyDisruption.AddMvjs: the contract states only what the walk leaves alone. For a NO_SERVICE impact, `VisitorProperties.MvjsMarked` proves that every listed meta trip is marked; the other effects are stated per meta trip by `ApplyDisruption.AddMetaVj`.
- ApplyDisruption.AddRoute: the contract states only what the walk leaves alone. For a NO_SERVICE impact, `VisitorProperties.RouteMarksEach` proves that every meta trip on the route is marked; the other effects are stated per meta trip by `ApplyDisruption.AddMetaVj`.
- ApplyDisruption.AddRoutes: the contract states only what the walk leaves alone. For a NO_SERVICE impact, `VisitorProperties.RoutesMarkEach` proves that every meta trip on the routes is marked; the other effects are stated per meta trip by `ApplyDisruption.AddMetaVj`.
- ApplyDisruption.AddLines: the contract states only what the walk leaves alone. For a NO_SERVICE impact, `VisitorProperties.LinesMarkEach` proves that every meta trip on the lines is marked; the other effects are stated per meta trip by `ApplyDisruption.AddMetaVj`.
- ApplyDisruption.AddEntities: the contract states only what the walk leaves alone. The change to each meta trip is stated by `ApplyDisruption.AddMetaVj`.
- ApplyDisruption.ApplyImpacts: the contract states only what the walk leaves alone. The change to each meta trip is stated by `ApplyDisruption.AddMetaVj`.
- ApplyDisruption.AddImpactedVj: the contract states only what is left alone. The journey it derives is stated by `VisitorProperties.SectionDerives`, assuming `create_discrete_vj` creates as asked; the cancellation comes from the `cancel_vj` parameter.
- ApplyDisruption.AddImpactedVjs: the contract states only what is left alone. Each journey it derives is stated by `VisitorProperties.SectionDerives`; that every impacted journey still has its derived journey after the whole list is not proved.
- ApplyDisruption.AddClosure: the contract states only what is left alone; the derived journey is stated by `VisitorProperties.ClosureDerives`. A candidate whose journey `create_discrete_vj` has meanwhile dropped is skipped, whereas the source keeps using the pointer it collected.
- ApplyDisruption.AddClosures: the contract states only what is left alone; `VisitorProperties.ClosuresAvoid` proves that no journey left afterwards, old or derived, newly calls at the closed stop. That every candidate keeps a derived journey to the end is not proved, because `create_discrete_vj` may drop journeys.
- ApplyDisruption.AddStopPoints: the contract states only what is left alone. Each stop point is covered by `VisitorProperties.StopPointNeverServed`.
- ApplyDisruption.Reschedule: the contract states only what is left alone. The journey it creates is stated by `VisitorProperties.RescheduleDerives`, assuming `create_discrete_vj` creates as asked; its finishing step is stated by `ApplyDisruption.Rescheduled`.
- ApplyDisruption.DeleteMatching: the contract states only what the walk leaves alone and that the collection stays ordered. The change to each meta trip is stated by `ApplyDisruption.DeleteMvj`.
- ApplyDisruption.DeleteStopPoint: the contract states only what the walk leaves alone and that the collection stays ordered. The change to each meta trip is stated by `ApplyDisruption.DeleteMvj`.
- ApplyDisruption.DeleteStopPoints: the contract states only what the walk leaves alone and that the collection stays ordered. The change to each meta trip is stated by `ApplyDisruption.DeleteMvj`.
- ApplyDisruption.DeleteMvjs: the contract states only what the walk leaves alone and that the collection stays ordered. The change to each meta trip is stated by `ApplyDisruption.DeleteMvj`.
- ApplyDisruption.DeleteRoutes: the contract states only what the walk leaves alone and that the collection stays ordered. The change to each meta trip is stated by `ApplyDisruption.DeleteMvj`.
- ApplyDisruption.DeleteLines: the contract states only what the walk leaves alone and that the collection stays ordered. The change to each meta trip is stated by `ApplyDisruption.DeleteMvj`.
- ApplyDisruption.DeleteEntity: the contract states only what the walk leaves alone and that the collection stays ordered. The change to each meta trip is stated by `ApplyDisruption.DeleteMvj`.
- ApplyDisruption.DeleteEntities: the contract states only what the walk leaves alone and that the collection stays ordered. The change to each meta trip is stated by `ApplyDisruption.DeleteMvj`.
- ApplyDisruption.DeleteImpacts: the contract states only what deletion leaves alone. The effect of deleting a cancelling impact is stated by the `DisruptionProperties` lemmas.
- ApplyDisruption.Replay: the contract states only what replaying leaves alone and that an empty collection replays nothing. Each replay is an `ApplyDisruption.ApplyDisruption`.
- ApplyDisruption.Candidates: the contract states which journeys are candidates and with what days; that they come in journey order, each at most once, is stated by `VisitorProperties.CandidatesInOrder`.
- ApplyDisruption.AddStopPoint: the contract states only what is left alone and which effects act. Per candidate the derived journey is stated by `VisitorProperties.ClosureDerives`, and over all candidates `VisitorProperties.StopPointNeverServed` proves that no journey newly calls at the closed stop; that each candidate still has its derived journey at the end is not proved. Closing the same stop point again is `ClosureRepeat.StopPointTwiceIsOnce`.
- ApplyDisruption.AddLineSection: the contract states only what is left alone and that only NO_SERVICE acts. One journey's derivation is `VisitorProperties.SectionDerives`, and a section over every stop is `DisruptionProperties.SectionCancelsInPlace`; the whole list of impacted journeys is not stated.
- ApplyDisruption.AddEntity: the contract states only what is left alone. Its cases are stated by `VisitorProperties.LinesMarkEach`, `VisitorProperties.RoutesMarkEach`, `VisitorProperties.RouteMarksEach`, `VisitorProperties.MvjsMarked`, `VisitorProperties.StopPointNeverServed` and `VisitorProperties.SectionDerives`.
- ApplyDisruption.ApplyImpact: the contract states only what is left alone and when nothing happens. Its effect is proved for a NO_SERVICE meta trip (`DisruptionProperties.ApplyCancelsMetaVj`) and per entity by the `VisitorProperties` lemmas.
- ApplyDisruption.ApplyDisruption: the contract states only what is left alone and that inert impacts do nothing. Its effect is proved for one and two impacts on a meta trip by `DisruptionProperties.ApplySingle` and `DisruptionProperties.ApplyPair`.
- ApplyDisruption.DeleteImpact: the contract states only what deletion leaves alone. Restoration is proved only for NO_SERVICE meta-trip cancellations. Removing derived journeys rests on the `clean_up_useless_vjs` parameter, so deleting a closure, section or reschedule is not stated.
- DisruptionProperties.ApplyTwiceIsApplyOnce: proved here for a cancellation of one meta trip only. A one-impact stop-point closure is proved idempotent by `ClosureRepeat.ApplyClosureTwiceIsOnce`. Line sections are not claimed. A reschedule derives a fresh journey on every pass, with a uri carrying a larger count, so it is not idempotent.
- ClosureRepeat.ApplyClosureTwiceIsOnce: proved under four hypotheses about code outside the model. `FreesTakenDays`: `create_discrete_vj` takes the new journey's days from the other journeys of the meta trip at that level, and gives no journey a new day. `VpOfSpFaithful`: `get_vp_of_sp` gives only the journey's own days, nothing when the journey skips the stop point, and no more days when the journey runs fewer days. `Listed`: every journey is in `vehicle_journeys` and has its meta trip. `NoCallBeforeShift`: no call at the stop point falls on a day before the journey's day shift.
- ClosureRepeat.ApplyClosureTwiceIsOnce: without `NoCallBeforeShift`, `>>= vj->shift` drops such a call. The journey then stays a candidate, and every pass derives another journey with no days; that case is not claimed.
- DisruptionProperties.ApplyThenDeleteRestores: proved for a one-impact cancellation of a meta trip only. Undoing a derived journey relies on the `clean_up_useless_vjs` parameter, which the model leaves open.
- BuildHelper.Make: the get-or-create of the line, route, network and physical mode and the meta trip's registration (build_helper.cpp lines 79-138) are not modelled. The model creates only the journey and its stop times.
- BuildHelper.RebaseFrequency: the `set_is_frequency(true)` call on each stop time is not modelled, because the model's stop time has no frequency flag.
- BuildHelper.LinkBlock: grouping journeys by `block_id`, skipping empty ids and the `std::sort` are not modelled; the block's order is a parameter. The source's sort comparator uses `<=`, which is not a strict weak order, so `std::sort` on equal departure times is undefined behaviour there.
- TyrResources.GetUsers: the request parser lower-cases `login`, `email` and `key` (`case_sensitive=False`); the model takes them as given.
- Text.ParseInt: the contract states only that blank text is refused. Its reading of digits is stated by `Text.ParseRendered`.

## Findings

| source | as written | input that shows it | evidently intended | confidence | as-written member | corrected member |
|---|---|---|---|---|---|---|
| source/kraken/apply_disruption.cpp:538-544 | The delete visitor's destructor replays the whole disruption of every collected impact, including the disruption being deleted, which is still alive during `delete_disruption`. | A disruption with two NO_SERVICE impacts on the same meta trip, applied then deleted. Deleting the first impact collects the second, whose replay re-applies both. | Deleting a disruption puts its meta trips back as they were before it was applied. | not executed | DisruptionProperties.DeleteTwoCancelsAsWritten | DisruptionProperties.DeleteTwoCancelsRestores |
| source/navitiacommon/navitiacommon/launch_exec.py:107 | The text `parse_log` returns for the next read is discarded, so a line split across two reads is cut in two. | The chunks "INF" then "O done\n" log ERROR "O done" instead of INFO "INFO done". | The unread rest is carried into the next read. | not executed | LaunchExec.SplitLineBrokenAsWritten | LaunchExec.CarriedIsWhole |
| source/jormungandr/jormungandr/interfaces/v1/serializer/geocode_json.py:99-105 | `min`/`max` run over all zip codes, empty ones included, once any code is non-empty. | ["", "75001"] gives "-75001". | The range runs between real codes, and ["", "75001"] gives "75001". | not executed | GeocodeJson.ZipCodeEmptyLowerEnd | GeocodeJson.ZipCodeBounds |
