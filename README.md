# Cart allocation of the Totoro plugger, in Dafny

This project models the cart-allocation engine of Totoro's plugger
(`Totoro/scheduler/plugger.py`). For one night, the engine decides which plate goes into which
physical cart. It then publishes a release order of the carts, from the lowest to the highest
priority, so the other survey knows which carts to take first.

The modules follow the program's structure:

- **Wrappers** holds `Option`, for Python's `None`, and `Result`, for Python's exceptions.
- **Entities** holds the records the engine reads:
  - a plate, with its completion figures taken as given;
  - past and active pluggings;
  - the configuration;
  - the cart status tuple `(cart, plate, code, label, completion)`;
  - the disposition of a cart in `cartPlateMessage`;
  - the errors the engine raises.
- **Classifier** holds `getCartStatus`, `getCartPlate` and `getCartForReplug`.
- **Prioritise** holds `prioritiseCarts`: a loop appending into six buckets, proved equal to a specification function and proved to order and permute the statuses.
- **Sorting** is a stable insertion sort. It stands for Python's `sorted` and for one resolution of `np.argsort`.
- **Allocation** specifies `allocateCarts` on values:
  - the cart dictionary is an ordered dictionary, as a key order plus a map;
  - the offline pass and the status list come first;
  - each of the three phases is a fold over the candidate plates, threading a `Run` (the dictionary, the pending statuses, `allocatedPlates` and `cartPlateMessage`);
  - last comes the pass over the leftover carts.

  An invariant (`Inv`) is proved to hold across every phase. The top-level theorems follow from it.
- **CartOrder** holds `addCartOrder` under the `'scheduled'` and `'completion'` metrics. It is a method built from loops, proved equal to the specification `Release`, with lemmas on what the order contains and how it is sorted.
- **Selection** holds the filter loops of `selectPlates`.
- **Scheduler** holds the `Plugger` class:
  - its fields are `carts`, the `'cart_order'` entry (`cartOrder`), `_nNewExposures`, the dates and `_platesToSchedule`;
  - its constructors are `_initNoManga` and `_initFromDates`, and `NewPlugger` is the date check of `__init__`;
  - its methods are `addCartOrder`, each phase of `allocateCarts` as a loop that mutates `carts`, `schedule`, `_cleanUp` and `getASOutput`;
  - each method's postcondition ties the new state to the specification functions above.

Database reads, the timeline and the visibility window are inputs:
- the active pluggings (in primary-key order);
- the plugged plates;
- the plates at the observatory;
- the plates the timeline scheduled.

Positions taken on the source:

- **The replug status lookup comes first.** For a replug, `cartStatus[cartNumber]` (plugger.py:457) is read before the check at plugger.py:458. The model raises `ReplugCartUnavailable` when:
  - the plate has no pluggings (`cartStatus[None]`), or
  - its last cart has no pending status, even when that cart is offline.

  The `cartNumber is not None` test is therefore dead.
- **Phase 1's pop can fail.** The pop of a plugged plate's cart (plugger.py:449) fails, as `PluggedCartUnavailable`, when that cart is not pending. This happens, for example, when two candidates report the same active cart. `PlaceSameCartFails` proves the second case.
- **The greedy fill can run out.** It fails as `NoCartLeft` when `sortedCarts` is empty (plugger.py:480). `FillSucceeds` states exactly when this happens.
- **The offline pass is keyed by primary key.** It compares each active plugging's primary key, not its cart, with `offlineCarts` (plugger.py:432-433). It can add a new key with the value `None`. `AllocateKeys` states the resulting key set.
- **Two different completion thresholds.** `addCartOrder` treats a plate as completed when its completion without mock exposures is `> 1` (plugger.py:570). The leftover-cart pass unplugs at `>= 1` (plugger.py:501). The model keeps both.
- **The `'cart_order'` entry.**
  - It counts in `len(self.carts)` when present (`Capacity`).
  - When `addCartOrder` meets it, it is a list where a plate is expected, and the call fails (`CartOrderIsNotAPlate`).
  - `getASOutput` without it raises a `KeyError` (`NoCartOrder`).
- **Status code 10 is never produced.** `GetCartStatus`'s contract limits codes to 0..4: the `return` at plugger.py:79 is unreachable.
- **The "not allocated" warning.** Given the errors above, every candidate ends in a cart or the allocation fails. So with distinct candidate plates, the warning at plugger.py:493-495 never fires (`AllocateNoneUnallocated`).

The warning looks as if it reported plates left without a cart. In the code it cannot: when carts run out, `sortedCarts[0]` at plugger.py:480 raises an `IndexError` before the loop ends, so the check at plugger.py:493-495 is never reached with a plate still unserved.

## Model

| member | source | states |
|---|---|---|
| Classifier.GetCartStatus | Totoro/scheduler/plugger.py:40-79 | fails only with `MultipleActivePluggings(cart)`; on success the tuple is for `cart`, its code is 0..4 (never 10) with the label `cartStatusCodes` gives it, and the plate is absent exactly for code 0 |
| Classifier.CartPluggingsMember | Totoro/scheduler/plugger.py:46-47 | the pluggings kept for a cart are exactly the active pluggings of that cart |
| Classifier.EmptyCartStatus | Totoro/scheduler/plugger.py:46-50 | a cart no active plugging occupies, and only such a cart, is `(cart, None, 0, 'empty', 0)` |
| Classifier.ConflictingCartStatus | Totoro/scheduler/plugger.py:49-54 | classification fails exactly when two active pluggings share the cart |
| Classifier.OccupiedCartStatus | Totoro/scheduler/plugger.py:55-77 | with one active plugging, the status carries that plate; its code is 1 (non-MaNGA), 2 (complete), 3 (completion 0) or 4, each iff its condition; completion is 1 for code 2, the plate's completion for code 4, else 0 |
| Classifier.GetCartPlate | Totoro/scheduler/plugger.py:82-88 | `None` exactly when no active plugging is for the cart, else the plate of one for the cart |
| Classifier.CartPluggingsHead | Totoro/scheduler/plugger.py:85-87 | the plate found is that of the first active plugging for the cart |
| Classifier.LatestPlugging | Totoro/scheduler/plugger.py:97-98 | the index is the first with maximal `fscan_mjd` (as `np.argmax`) |
| Classifier.GetCartForReplug | Totoro/scheduler/plugger.py:91-98 | `None` exactly when the plate has no pluggings, else the cart of the first plugging with maximal `fscan_mjd` |
| Sorting.SortPermutes | Totoro/scheduler/plugger.py:129 | sorting returns a permutation of its input |
| Sorting.SortSorted | Totoro/scheduler/plugger.py:129 | sorting returns a list non-decreasing in the key |
| Sorting.SortStable | Totoro/scheduler/plugger.py:129 | equal keys keep their input order |
| Prioritise.PrioritiseCarts | Totoro/scheduler/plugger.py:101-132 | the bucket loop returns exactly the prioritised list |
| Prioritise.BucketMember | Totoro/scheduler/plugger.py:113-126 | a bucket holds exactly the statuses with its label |
| Prioritise.RetainedCount | Totoro/scheduler/plugger.py:113-126 | statuses with one of the six known labels are kept as often as they occur; others are dropped |
| Prioritise.PrioritisedCount | Totoro/scheduler/plugger.py:113-132 | each status occurs in the result exactly as often as in the input when its label is known, and never otherwise |
| Prioritise.PrioritisedPermutes | Totoro/scheduler/plugger.py:132 | the result is a permutation of the retained statuses |
| Prioritise.PrioritisedFromInput | Totoro/scheduler/plugger.py:101-132 | nothing is returned that was not in the input, nor more often |
| Prioritise.PrioritisedRanked | Totoro/scheduler/plugger.py:132 | every label is known and the buckets come in the order empty, complete, unknown, noMaNGA, noStarted, started |
| Prioritise.PrioritisedMember | Totoro/scheduler/plugger.py:113-132 | a status is in the result exactly when it is in the input and its label is one of the six known ones |
| Prioritise.PrioritisedBucket | Totoro/scheduler/plugger.py:132 | within each bucket other than started, the input order is kept |
| Prioritise.PrioritisedStartedBucket | Totoro/scheduler/plugger.py:129 | the started bucket is the started statuses stably sorted by completion |
| Prioritise.PrioritisedBuckets | Totoro/scheduler/plugger.py:128-132 | the five unsorted buckets keep input order; the started bucket is sorted ascending and keeps input order among equal completions |
| Allocation.Set | Totoro/scheduler/plugger.py:446 | `self.carts[c] = v`: the key set gains `c`, `c` maps to `v`, other entries are untouched, an existing key keeps its place and a new one goes last; validity is kept |
| Allocation.FindCart | Totoro/scheduler/plugger.py:457 | `cartStatus[c]` is found exactly when some pending status is for `c`, and is one of them |
| Allocation.WithoutCart | Totoro/scheduler/plugger.py:449 | the pop removes statuses and adds none, keeps every status of another cart, and changes nothing when no status is for that cart |
| Allocation.WithoutCartFirst | Totoro/scheduler/plugger.py:449 | when some status is for the cart, the pop removes exactly the first such status and keeps the others in order |
| Allocation.WithoutCartLeaves | Totoro/scheduler/plugger.py:449 | with one status per cart, the pop leaves no status for that cart |
| Allocation.SubListDistinct | Totoro/scheduler/plugger.py:436-438 | removing statuses keeps one status per cart |
| Allocation.StatusesFree | Totoro/scheduler/plugger.py:436-438 | every status built is for a key of the dictionary whose value is `None`, and is that cart's own status |
| Allocation.StatusesCover | Totoro/scheduler/plugger.py:436-438 | every free key gets its own status in the list |
| Allocation.StatusesDistinct | Totoro/scheduler/plugger.py:436-438 | over distinct keys the status list has one status per cart |
| Allocation.StatusesFail | Totoro/scheduler/plugger.py:436-438 | building the statuses fails exactly when a free key has two active pluggings |
| Allocation.AssignKeeps | Totoro/scheduler/plugger.py:446-449 | one assignment keeps the invariant and the keys, and places the plate in its cart with its message |
| Allocation.PlaceKeeps | Totoro/scheduler/plugger.py:443-449 | phase 1 keeps the invariant and the keys, and moves no plate already placed |
| Allocation.PlacePlugged | Totoro/scheduler/plugger.py:443-449 | after phase 1 every plugged candidate sits in its active cart with 'already plugged' |
| Allocation.PlaceFailsOnTakenCart | Totoro/scheduler/plugger.py:449 | a plugged candidate whose active cart is not pending makes phase 1 fail |
| Allocation.PlaceSameCartFails | Totoro/scheduler/plugger.py:443-449 | two plugged candidates reporting the same active cart make phase 1 fail |
| Allocation.ReplugOutcome | Totoro/scheduler/plugger.py:452-469 | for a replug not yet allocated: no plugging fails; a last cart not pending fails; an offline last cart assigns nothing; otherwise the plate goes to its last cart, whose status is popped, with the replace message of its code |
| Allocation.ReplugKeeps | Totoro/scheduler/plugger.py:452-469 | phase 2 keeps the invariant and the keys and moves no plate already placed |
| Allocation.Reprioritise | Totoro/scheduler/plugger.py:473 | replacing the pending statuses by their prioritised list keeps the invariant and every placement |
| Allocation.FillSucceeds | Totoro/scheduler/plugger.py:476-491 | phase 3 succeeds exactly when the plates still needing a cart are no more than the pending carts |
| Allocation.FillTakesHeads | Totoro/scheduler/plugger.py:476-491 | a successful phase 3 consumes exactly as many heads of the prioritised list as plates needing a cart, and appends exactly those plates |
| Allocation.FillPlaces | Totoro/scheduler/plugger.py:476-491 | the j-th plate needing a cart goes to the j-th prioritised cart, with the replace message of its code, so no cart receives two plates |
| Allocation.FillKeeps | Totoro/scheduler/plugger.py:476-491 | phase 3 keeps the invariant and the keys and moves no plate already placed |
| Allocation.NeedsCovers | Totoro/scheduler/plugger.py:476-478 | every candidate is allocated before phase 3 or among the plates phase 3 serves |
| Allocation.Dispose | Totoro/scheduler/plugger.py:499-517 | the leftover pass changes neither the pending list nor `allocatedPlates` |
| Allocation.DisposeAt | Totoro/scheduler/plugger.py:499-517 | each leftover cart gets exactly its disposition: 'unplug' at completion >= 1; otherwise a MaNGA cart with a plate keeps it ('already plugged' or 'unchanged'); otherwise 'not doing anything' |
| Allocation.DisposeOther | Totoro/scheduler/plugger.py:499-517 | carts not leftover are untouched by the leftover pass |
| Allocation.DisposeKeys | Totoro/scheduler/plugger.py:499-517 | the leftover pass keeps the keys and their order |
| Allocation.Candidates | Totoro/scheduler/plugger.py:408-413 | the plates considered are a prefix, all of them when they fit, else exactly `len(self.carts)` of them |
| Allocation.MarkOffline | Totoro/scheduler/plugger.py:431-433 | the offline pass keeps the dictionary well formed |
| Allocation.MarkOfflineAt | Totoro/scheduler/plugger.py:431-433 | the pass adds, with value `None`, exactly the offline numbers some active plugging has as primary key, and leaves every other entry as it was |
| Allocation.StartInv | Totoro/scheduler/plugger.py:431-440 | the set-up fails exactly when a free cart has two active pluggings; otherwise the invariant holds with nothing allocated, and the pending list is the statuses of the free carts of the offline pass |
| Allocation.AllocateKeepsPlugged | Totoro/scheduler/plugger.py:405-517 | after a successful allocation every plugged candidate is in its active cart with 'already plugged' |
| Allocation.AllocatePlacesAll | Totoro/scheduler/plugger.py:405-491 | after a successful allocation every candidate is allocated and sits in some cart |
| Allocation.AllocateLeftover | Totoro/scheduler/plugger.py:499-517 | every leftover cart ends with its disposition and holds its plate when kept, else `None` |
| Allocation.AssignTraced | Totoro/scheduler/plugger.py:446-449 | an assignment leaves every cart either pending with its status or holding a placed plate |
| Allocation.PlaceTraced | Totoro/scheduler/plugger.py:443-449 | phase 1 leaves every cart either pending with its status or holding a placed plate |
| Allocation.ReplugTraced | Totoro/scheduler/plugger.py:452-469 | phase 2 leaves every cart either pending with its status or holding a placed plate |
| Allocation.SortTraced | Totoro/scheduler/plugger.py:473 | the prioritisation keeps every status with a known label |
| Allocation.FillTraced | Totoro/scheduler/plugger.py:476-491 | phase 3 leaves every cart either pending with its status or holding a placed plate |
| Allocation.PhasesTraced | Totoro/scheduler/plugger.py:443-517 | after all phases every cart is still either pending with its status or holding a placed plate |
| Allocation.StartTraced | Totoro/scheduler/plugger.py:431-440 | every cart free after the offline pass starts phase 1 pending with its own status, whose label is known |
| Allocation.AllocateFreeCart | Totoro/scheduler/plugger.py:431-517 | every cart free after the offline pass ends either holding a placed plate, or left over with the disposition of its own status and its plate when kept |
| Allocation.AllocateKeys | Totoro/scheduler/plugger.py:431-517 | the final dictionary is well formed, in the key order of the offline pass, with the old keys plus the offline primary keys |
| Allocation.AllocateNoneUnallocated | Totoro/scheduler/plugger.py:493-495 | with distinct plates no candidate is left unallocated |
| CartOrder.PartMember | Totoro/scheduler/plugger.py:565-573 | a pair is in a group exactly when its cart holds that plate and the plate falls in the group (force-plug priority, else completion > 1, else scheduled) |
| CartOrder.SplitGroups | Totoro/scheduler/plugger.py:565-573 | the split loop returns the three groups in key order |
| CartOrder.GroupsCover | Totoro/scheduler/plugger.py:565-573 | the three groups together hold exactly the occupied carts |
| CartOrder.CartsOfMember | Totoro/scheduler/plugger.py:644 | a cart is listed exactly when some pair has it |
| CartOrder.SplitIncomplete | Totoro/scheduler/plugger.py:594-598 | the loop splits the scheduled plates by `hasIncompleteSets`, keeping order |
| CartOrder.WithIncompleteCount | Totoro/scheduler/plugger.py:594-598 | each side keeps exactly the pairs with its flag, as often as they occur |
| CartOrder.OrderedPermutes | Totoro/scheduler/plugger.py:575-616 | under either metric the scheduled part is reordered, not changed |
| CartOrder.OrderedCarts | Totoro/scheduler/plugger.py:575-616 | ordering changes no cart of the scheduled part |
| CartOrder.ReleaseScheduled | Totoro/scheduler/plugger.py:575-625 | under 'scheduled': completed, then unused offline carts in configuration order, then the scheduled plates sorted non-decreasing by new exposures (0 when unknown; ties in any order), then force-plug plates |
| CartOrder.OrderedCompletion | Totoro/scheduler/plugger.py:588-616 | under 'completion': plates without incomplete sets by ascending completion, then those with incomplete sets by ascending completion including them (ties in any order) |
| CartOrder.UnusedOffline | Totoro/scheduler/plugger.py:623-624 | the offline carts not used, in configuration order |
| CartOrder.UnusedMember | Totoro/scheduler/plugger.py:623-624 | an offline cart is listed exactly when no occupied cart uses it |
| CartOrder.FirstIncomplete | Totoro/scheduler/plugger.py:628-633 | the index is that of the first scheduled plate with a set whose status is 'Incomplete', or the length when there is none |
| CartOrder.FindFirstIncomplete | Totoro/scheduler/plugger.py:628-633 | the counting loop returns that index |
| CartOrder.InsertOffline | Totoro/scheduler/plugger.py:636-639 | inserting each unused offline cart at that index leaves them in reverse configuration order just before it |
| CartOrder.AssembleCompletion | Totoro/scheduler/plugger.py:627-641 | under 'completion' the order is completed + scheduled before the first incomplete plate + reversed unused offline carts + the rest + force-plug |
| CartOrder.AssembleMember | Totoro/scheduler/plugger.py:618-641 | the assembled order lists exactly the carts of the three groups and the configured offline carts |
| CartOrder.OrderCarts | Totoro/scheduler/plugger.py:560-644 | the method builds exactly the release order |
| CartOrder.ReleaseMember | Totoro/scheduler/plugger.py:560-644 | the release order lists exactly the occupied carts and the configured offline carts |
| Selection.MarkStarted | Totoro/scheduler/plugger.py:322-323 | the replug flag is set when completion including incomplete sets exceeds 0, and nothing else changes |
| Selection.SelectPlates | Totoro/scheduler/plugger.py:295-345 | the two loops return exactly the selection |
| Selection.ForcedMember | Totoro/scheduler/plugger.py:298-302 | the first list holds exactly the plates with force-plug priority or plugged |
| Selection.RemainderMember | Totoro/scheduler/plugger.py:305-343 | the second loop keeps exactly the plates not in the first list, above the no-plug priority and not complete, with the replug mark |
| Selection.SelectedMember | Totoro/scheduler/plugger.py:295-345 | a plate is selected exactly when forced, or when not forced, eligible and marked |
| Selection.SelectedForcedFirst | Totoro/scheduler/plugger.py:298-345 | every forced plate precedes every other selected plate |
| Scheduler.DateMode | Totoro/scheduler/plugger.py:140-152 | zero dates count as absent; both absent selects no-dates mode; exactly one absent fails; two dates not in order fail; else both dates are kept |
| Scheduler.NewPlugger | Totoro/scheduler/plugger.py:138-152 | creation fails exactly as the date check says, else builds the plugger of the matching mode |
| Scheduler.PluggedCartsKey | Totoro/scheduler/plugger.py:173-176 | a cart is a key exactly when a plugged plate that is not complete is in it |
| Scheduler.PluggedCartsLast | Totoro/scheduler/plugger.py:173-176 | its value is the last such plate of the list |
| Scheduler.Plugger.InitNoManga | Totoro/scheduler/plugger.py:154-178 | no dates, no exposure counts, the plugged non-complete plates in their carts, and the release order under 'completion' |
| Scheduler.FreeCartsAt | Totoro/scheduler/plugger.py:198-200 | the keys are exactly the MaNGA carts not offline, all `None` |
| Scheduler.Plugger.InitFromDates | Totoro/scheduler/plugger.py:180-200 | both dates kept, the selected plates, the free MaNGA carts and no release order |
| Scheduler.Plugger.AddCartOrder | Totoro/scheduler/plugger.py:530-646 | writes the release order of the current carts, or fails when an order is already present; nothing else changes |
| Scheduler.Plugger.MarkOfflinePluggings | Totoro/scheduler/plugger.py:431-433 | the loop leaves the dictionary as the offline pass specifies |
| Scheduler.Plugger.PlacePluggedPlates | Totoro/scheduler/plugger.py:443-449 | the loop computes phase 1, error included |
| Scheduler.Plugger.ReplugPlates | Totoro/scheduler/plugger.py:452-469 | the loop computes phase 2, errors included |
| Scheduler.Plugger.FillPlates | Totoro/scheduler/plugger.py:476-491 | the loop computes phase 3, error included |
| Scheduler.Plugger.CheckLeftover | Totoro/scheduler/plugger.py:499-517 | the loop computes the leftover pass |
| Scheduler.Plugger.StartRun | Totoro/scheduler/plugger.py:431-440 | the offline pass and the status list, as the start of the allocation specifies, errors included |
| Scheduler.Plugger.RunPhases | Totoro/scheduler/plugger.py:443-517 | the three phase loops and the leftover pass compute exactly the phases of the allocation |
| Scheduler.Plugger.AllocatePlates | Totoro/scheduler/plugger.py:405-517 | the dictionary ends as the allocation specifies, with its errors and warnings; the release order is not touched |
| Scheduler.Plugger.AllocateCarts | Totoro/scheduler/plugger.py:405-528 | the dictionary ends as the allocation specifies, with the same errors, and the release order under 'scheduled' is written (or fails when already present) |
| Scheduler.ExposureCountsKey | Totoro/scheduler/plugger.py:221-223 | a plate id has a count exactly when a scheduled plate has it |
| Scheduler.ExposureCountsLast | Totoro/scheduler/plugger.py:221-223 | the count of a plate id is that of the last scheduled plate with the id |
| Scheduler.Plugger.Schedule | Totoro/scheduler/plugger.py:202-226 | records the exposure counts, allocates, and on success removes the empty carts, the release order being that of the allocated carts |
| Scheduler.Plugger.EmptyCartKeys | Totoro/scheduler/plugger.py:651-656 | the first loop collects the keys whose value is `None`, in order |
| Scheduler.EmptyKeysMember | Totoro/scheduler/plugger.py:651-656 | a key is collected exactly when its value is `None` |
| Scheduler.Plugger.PopAll | Totoro/scheduler/plugger.py:658-659 | the second loop removes exactly the collected keys from the map and the key order |
| Scheduler.KeepKeysMember | Totoro/scheduler/plugger.py:658-659 | what remains of the key order is exactly the keys not removed |
| Scheduler.Plugger.CleanUp | Totoro/scheduler/plugger.py:648-659 | the dictionary becomes its compaction; nothing else changes |
| Scheduler.CompactSpec | Totoro/scheduler/plugger.py:648-659 | compaction keeps the dictionary well formed, removes exactly the keys with `None` and keeps every plate where it was |
| Scheduler.FinalOrderSpec | Totoro/scheduler/plugger.py:241-249 | the final order is the APOGEE carts last to first, then the MaNGA carts not in the old order, then the old order; it lists exactly the APOGEE carts, the MaNGA carts and the old order |
| Scheduler.OutputOrderMember | Totoro/scheduler/plugger.py:241-249 | after an allocation the published order lists exactly the APOGEE, MaNGA and offline carts and the occupied carts |
| Scheduler.Plugger.PlateIdsOf | Totoro/scheduler/plugger.py:252-254 | every key maps to its plate's id, empty carts to `None` |
| Scheduler.Plugger.FinishOutput | Totoro/scheduler/plugger.py:241-256 | without a release order it fails; otherwise it writes the final order and returns the keys, the plate ids and that order |
| Scheduler.Plugger.GetASOutput | Totoro/scheduler/plugger.py:234-256 | schedules first when both dates are set and then finishes the output, with the errors of each step |

## Left out

- **Database access.** This covers:
  - the active-plugging query of `allocateCarts`;
  - `_scheduleForced`;
  - `getAtAPO` and `getPlugged`.

  It is I/O. Its results are inputs.
- **The timeline** (`Timeline`, `timeline.schedule`, `remainingTime`) is an external collaborator. The plates it scheduled are an input.
- **The list-removal loop of `schedule`** (plugger.py:207-210) removes items from a list while iterating over it. It only feeds the timeline.
- **The visibility window of `selectPlates`** (plugger.py:273-285) is floating-point astronomy in foreign calls. So is the plate query that follows it.
- **Plate completion arithmetic.** `getPlateCompletion` and its variants, `isComplete`, `hasIncompleteSets`, the set statuses and the MaNGA survey-mode test are computed elsewhere. They are fields of the plate record.
- **Logging, including `_logCartAllocation` and message text.** Each `cartPlateMessage` entry keeps its plate and a disposition tag. The status code stands for the `replaceMsgs` text. The `', completion=…'` suffix of a started cart is not modelled.
- **Warnings** are values, not side effects:
  - whether the plate list was truncated;
  - the count of unallocated plates.

  The no-dates warning is not modelled.
- **Allocation.Allocate's errors.** On an error, the partly updated dictionary is not specified by `Allocation.Allocate`. The methods of `Scheduler.Plugger` keep only its well-formedness.
- **Scheduler.Plugger.GetASOutput's plate ids.** It returns the plate ids in a new map and does not overwrite the plates held by the plugger. So the failure of a second call on the rewritten dictionary is not modelled.
- **np.argsort ties.** The model sorts ties stably. `CartOrder.ReleaseScheduled` and `CartOrder.OrderedCompletion` promise only a sorted permutation, because `np.argsort` does not fix the order of ties.
- **Plate identity.** Plates are compared by value, where Python compares the objects. This affects `plate in allocatedPlates` and `plate not in platesToSchedule`.
- **The `metric` assertion** of `addCartOrder` cannot fail: the metric is a two-valued type.
- **The `onlyVisiblePlates` type assertion** of `selectPlates` is not modelled.
- **Scheduler.Plugger.InitFromDates** takes `jd0 < jd1` as a precondition. `Scheduler.DateMode` and `Scheduler.NewPlugger` turn a failure of that check into `DatesOutOfOrder`.
