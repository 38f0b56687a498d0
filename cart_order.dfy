/**
  `Plugger.addCartOrder`: the release order of the carts, from lowest to highest priority, that
  tells the other survey which carts to take first. The occupied carts are split into completed,
  scheduled and force-plug plates; the scheduled part is ordered by a metric and the unused
  offline carts are placed among them.
 */
module CartOrder {
  import opened Entities
  import opened Wrappers
  import Sorting
  import Allocation

  /** The `metric` argument: `'scheduled'` or `'completion'`. */
  datatype Metric = ScheduledMetric | CompletionMetric

  /** The three priority categories of an occupied cart. */
  datatype Group = ForcePlug | Completed | Scheduled

  /** An occupied cart and its plate, a `(cart, plate)` pair. */
  datatype Entry = Entry(cart: int, plate: Plate)

  /** Force-plug priority first; then completed (completion without mock exposures above 1). */
  function GroupOf(p: Plate, forcePlugPriority: int): Group {
    if p.priority == forcePlugPriority then ForcePlug
    else if p.completionNoMock > 1.0 then Completed
    else Scheduled
  }

  /** The occupied carts among `keys` whose plate falls in group `g`, in key order. */
  function Part(keys: seq<int>, slots: map<int, Option<Plate>>, forcePlugPriority: int, g: Group): seq<Entry> {
    if keys == [] then []
    else
      var c := keys[|keys| - 1];
      Part(keys[..|keys| - 1], slots, forcePlugPriority, g)
      + if c in slots && slots[c].Some? && GroupOf(slots[c].value, forcePlugPriority) == g
        then [Entry(c, slots[c].value)] else []
  }

  lemma {:induction false} PartMember(keys: seq<int>, slots: map<int, Option<Plate>>, forcePlugPriority: int,
                                      g: Group, e: Entry)
    ensures e in Part(keys, slots, forcePlugPriority, g)
            <==> e.cart in keys && e.cart in slots && slots[e.cart] == Some(e.plate)
                 && GroupOf(e.plate, forcePlugPriority) == g
  {
    if keys != [] {
      PartMember(keys[..|keys| - 1], slots, forcePlugPriority, g, e);
      assert keys == keys[..|keys| - 1] + [keys[|keys| - 1]];
    }
  }

  /** The cart numbers of a list of pairs. */
  function CartsOf(s: seq<Entry>): (r: seq<int>)
    ensures |r| == |s|
  {
    if s == [] then [] else [s[0].cart] + CartsOf(s[1..])
  }

  lemma {:induction false} CartsOfConcat(a: seq<Entry>, b: seq<Entry>)
    ensures CartsOf(a + b) == CartsOf(a) + CartsOf(b)
  {
    if a == [] {
      assert a + b == b;
    } else {
      assert (a + b)[1..] == a[1..] + b;
      CartsOfConcat(a[1..], b);
    }
  }

  lemma {:induction false} CartsOfMember(s: seq<Entry>, c: int)
    ensures c in CartsOf(s) <==> exists e :: e in s && e.cart == c
  {
    if s != [] {
      CartsOfMember(s[1..], c);
      assert forall e :: e in s <==> e == s[0] || e in s[1..];
    }
  }

  /** The configured offline carts not in `used`, in configuration order. */
  function Unused(offline: seq<int>, used: seq<int>): seq<int> {
    if offline == [] then []
    else
      var c := offline[|offline| - 1];
      Unused(offline[..|offline| - 1], used) + if c !in used then [c] else []
  }

  lemma {:induction false} UnusedMember(offline: seq<int>, used: seq<int>, c: int)
    ensures c in Unused(offline, used) <==> c in offline && c !in used
  {
    if offline != [] {
      UnusedMember(offline[..|offline| - 1], used, c);
      assert offline == offline[..|offline| - 1] + [offline[|offline| - 1]];
    }
  }

  function Reverse(s: seq<int>): (r: seq<int>)
    ensures |r| == |s|
  {
    if s == [] then [] else [s[|s| - 1]] + Reverse(s[..|s| - 1])
  }

  lemma {:induction false} ReverseMember(s: seq<int>, c: int)
    ensures c in Reverse(s) <==> c in s
  {
    if s != [] {
      ReverseMember(s[..|s| - 1], c);
      assert s == s[..|s| - 1] + [s[|s| - 1]];
    }
  }

  /** `_nNewExposures.get(plate_id, 0)`, the sort key of the scheduled metric. */
  function NewExposures(nNew: map<int, nat>, e: Entry): real {
    (if e.plate.plateId in nNew then nNew[e.plate.plateId] else 0) as real
  }

  function ExposureKey(nNew: map<int, nat>): Entry -> real {
    e => NewExposures(nNew, e)
  }

  function PlateCompletion(e: Entry): real {
    e.plate.completion
  }

  function CompletionInclIncomplete(e: Entry): real {
    e.plate.completionInclIncomplete
  }

  /** Some set of the plate has status `'Incomplete'`. */
  predicate IncompleteSet(e: Entry) {
    "Incomplete" in e.plate.setStatuses
  }

  /** The scheduled pairs whose plate has (or has not) incomplete sets, in their order. */
  function WithIncomplete(s: seq<Entry>, has: bool): seq<Entry> {
    if s == [] then []
    else WithIncomplete(s[..|s| - 1], has) + if s[|s| - 1].plate.hasIncompleteSets == has then [s[|s| - 1]] else []
  }

  lemma {:induction false} WithIncompleteCount(s: seq<Entry>, has: bool, e: Entry)
    ensures multiset(WithIncomplete(s, has))[e] == if e.plate.hasIncompleteSets == has then multiset(s)[e] else 0
  {
    if s != [] {
      WithIncompleteCount(s[..|s| - 1], has, e);
      assert s == s[..|s| - 1] + [s[|s| - 1]];
    }
  }

  /** The index of the first pair with an incomplete set, or the length when there is none. */
  function FirstIncomplete(s: seq<Entry>): (ii: nat)
    ensures ii <= |s| && (ii < |s| ==> IncompleteSet(s[ii]))
    ensures forall k :: 0 <= k < ii ==> !IncompleteSet(s[k])
  {
    if s == [] then 0
    else if IncompleteSet(s[0]) then 0
    else 1 + FirstIncomplete(s[1..])
  }

  /** The scheduled part under each metric (`scheduledOrdered`). */
  function Ordered(scheduled: seq<Entry>, metric: Metric, nNew: map<int, nat>): seq<Entry> {
    match metric
    case ScheduledMetric => Sorting.SortBy(scheduled, ExposureKey(nNew))
    case CompletionMetric =>
      Sorting.SortBy(WithIncomplete(scheduled, false), PlateCompletion)
      + Sorting.SortBy(WithIncomplete(scheduled, true), CompletionInclIncomplete)
  }

  /**
    The list of carts from the three groups, the scheduled part already ordered, and the
    configured offline carts: those not used go after the completed plates (scheduled metric)
    or, in reverse, before the first plate with an incomplete set (completion metric).
   */
  function Assemble(completed: seq<Entry>, so: seq<Entry>, forcePlug: seq<Entry>, metric: Metric,
                    offlineCarts: seq<int>): seq<int>
  {
    var unused := Unused(offlineCarts, CartsOf(completed + so + forcePlug));
    match metric
    case ScheduledMetric => CartsOf(completed) + unused + CartsOf(so) + CartsOf(forcePlug)
    case CompletionMetric =>
      var ii := FirstIncomplete(so);
      CartsOf(completed) + CartsOf(so)[..ii] + Reverse(unused) + CartsOf(so)[ii..] + CartsOf(forcePlug)
  }

  /** The `'cart_order'` list for the cart dictionary `d`. */
  function Release(d: Allocation.Carts, metric: Metric, cfg: Config, nNew: map<int, nat>): seq<int> {
    var force := cfg.forcePlugPriority;
    Assemble(Part(d.keys, d.slots, force, Completed),
             Ordered(Part(d.keys, d.slots, force, Scheduled), metric, nNew),
             Part(d.keys, d.slots, force, ForcePlug), metric, cfg.offlineCarts)
  }

  /** The loop over `self.carts.iteritems()` that splits the occupied carts in three. */
  method SplitGroups(d: Allocation.Carts, force: int) returns (completed: seq<Entry>, scheduled: seq<Entry>, forcePlug: seq<Entry>)
    ensures completed == Part(d.keys, d.slots, force, Completed)
    ensures scheduled == Part(d.keys, d.slots, force, Scheduled)
    ensures forcePlug == Part(d.keys, d.slots, force, ForcePlug)
  {
    completed, scheduled, forcePlug := [], [], [];
    for i := 0 to |d.keys|
      invariant completed == Part(d.keys[..i], d.slots, force, Completed)
      invariant scheduled == Part(d.keys[..i], d.slots, force, Scheduled)
      invariant forcePlug == Part(d.keys[..i], d.slots, force, ForcePlug)
    {
      assert d.keys[..i + 1][..i] == d.keys[..i];
      var c := d.keys[i];
      if c in d.slots && d.slots[c].Some? {
        var plate := d.slots[c].value;
        if plate.priority == force {
          forcePlug := forcePlug + [Entry(c, plate)];
        } else if plate.completionNoMock > 1.0 {
          completed := completed + [Entry(c, plate)];
        } else {
          scheduled := scheduled + [Entry(c, plate)];
        }
      }
    }
    assert d.keys[..|d.keys|] == d.keys;
  }

  /** The loop that splits the scheduled plates by whether they have incomplete sets. */
  method SplitIncomplete(scheduled: seq<Entry>) returns (withIncomplete: seq<Entry>, withoutIncomplete: seq<Entry>)
    ensures withIncomplete == WithIncomplete(scheduled, true)
    ensures withoutIncomplete == WithIncomplete(scheduled, false)
  {
    withIncomplete, withoutIncomplete := [], [];
    for i := 0 to |scheduled|
      invariant withIncomplete == WithIncomplete(scheduled[..i], true)
      invariant withoutIncomplete == WithIncomplete(scheduled[..i], false)
    {
      assert scheduled[..i + 1][..i] == scheduled[..i];
      if scheduled[i].plate.hasIncompleteSets {
        withIncomplete := withIncomplete + [scheduled[i]];
      } else {
        withoutIncomplete := withoutIncomplete + [scheduled[i]];
      }
    }
    assert scheduled[..|scheduled|] == scheduled;
  }

  /** `[cart for cart in config['offlineCarts'] if cart not in usedCarts]`. */
  method UnusedOffline(offline: seq<int>, usedCarts: seq<int>) returns (unused: seq<int>)
    ensures unused == Unused(offline, usedCarts)
  {
    unused := [];
    for k := 0 to |offline|
      invariant unused == Unused(offline[..k], usedCarts)
    {
      assert offline[..k + 1][..k] == offline[..k];
      if offline[k] !in usedCarts {
        unused := unused + [offline[k]];
      }
    }
    assert offline[..|offline|] == offline;
  }

  /** The counting loop that stops at the first plate with an incomplete set. */
  method FindFirstIncomplete(scheduledOrdered: seq<Entry>) returns (ii: nat)
    ensures ii == FirstIncomplete(scheduledOrdered)
  {
    ii := 0;
    while ii < |scheduledOrdered| && !IncompleteSet(scheduledOrdered[ii])
      invariant ii <= |scheduledOrdered|
      invariant forall k :: 0 <= k < ii ==> !IncompleteSet(scheduledOrdered[k])
    {
      ii := ii + 1;
    }
  }

  lemma Regroup(a: seq<int>, c: int, r: seq<int>, b: seq<int>)
    ensures a + [c] + (r + b) == a + ([c] + r) + b
  {
  }

  /** `scheduledOrdered.insert(ii, (cart, None))` for every unused offline cart in turn. */
  method InsertOffline(xs: seq<int>, ii: nat, offline: seq<int>, usedCarts: seq<int>) returns (ordered: seq<int>)
    requires ii <= |xs|
    ensures ordered == xs[..ii] + Reverse(Unused(offline, usedCarts)) + xs[ii..]
  {
    ordered := xs;
    assert ordered == xs[..ii] + [] + xs[ii..];
    for k := 0 to |offline|
      invariant ordered == xs[..ii] + Reverse(Unused(offline[..k], usedCarts)) + xs[ii..]
    {
      var u := Unused(offline[..k], usedCarts);
      assert offline[..k + 1][..k] == offline[..k];
      assert Unused(offline[..k + 1], usedCarts) == u + if offline[k] !in usedCarts then [offline[k]] else [];
      if offline[k] !in usedCarts {
        assert (u + [offline[k]])[..|u|] == u;
        assert Reverse(u + [offline[k]]) == [offline[k]] + Reverse(u);
        assert ordered[..ii] == xs[..ii] && ordered[ii..] == Reverse(u) + xs[ii..];
        Regroup(xs[..ii], offline[k], Reverse(u), xs[ii..]);
        ordered := ordered[..ii] + [offline[k]] + ordered[ii..];
        assert ordered == xs[..ii] + Reverse(Unused(offline[..k + 1], usedCarts)) + xs[ii..];
      } else {
        assert Unused(offline[..k + 1], usedCarts) == u;
      }
    }
    assert offline[..|offline|] == offline;
  }

  /** `addCartOrder` without the final write: the release order, built as the original builds it. */
  method OrderCarts(d: Allocation.Carts, metric: Metric, cfg: Config, nNew: map<int, nat>) returns (order: seq<int>)
    ensures order == Release(d, metric, cfg, nNew)
  {
    var completed, scheduled, forcePlug := SplitGroups(d, cfg.forcePlugPriority);
    var scheduledOrdered;
    if metric == ScheduledMetric {
      scheduledOrdered := Sorting.SortBy(scheduled, ExposureKey(nNew));
    } else {
      var withIncomplete, withoutIncomplete := SplitIncomplete(scheduled);
      scheduledOrdered := Sorting.SortBy(withoutIncomplete, PlateCompletion)
                          + Sorting.SortBy(withIncomplete, CompletionInclIncomplete);
    }
    var usedCarts := CartsOf(completed + scheduledOrdered + forcePlug);
    if metric == ScheduledMetric {
      var unused := UnusedOffline(cfg.offlineCarts, usedCarts);
      order := CartsOf(completed) + unused + CartsOf(scheduledOrdered) + CartsOf(forcePlug);
    } else {
      var ii := FindFirstIncomplete(scheduledOrdered);
      var ordered := InsertOffline(CartsOf(scheduledOrdered), ii, cfg.offlineCarts, usedCarts);
      order := CartsOf(completed) + ordered + CartsOf(forcePlug);
    }
  }

  // ---------------------------------------------------------------------------------------
  // What the release order promises.

  /** The scheduled part is some ordering of the scheduled plates, whichever the metric. */
  lemma OrderedPermutes(scheduled: seq<Entry>, metric: Metric, nNew: map<int, nat>)
    ensures multiset(Ordered(scheduled, metric, nNew)) == multiset(scheduled)
  {
    match metric
    case ScheduledMetric =>
      Sorting.SortPermutes(scheduled, ExposureKey(nNew));
    case CompletionMetric =>
      var without := WithIncomplete(scheduled, false);
      var with := WithIncomplete(scheduled, true);
      Sorting.SortPermutes(without, PlateCompletion);
      Sorting.SortPermutes(with, CompletionInclIncomplete);
      forall e ensures multiset(without)[e] + multiset(with)[e] == multiset(scheduled)[e] {
        WithIncompleteCount(scheduled, false, e);
        WithIncompleteCount(scheduled, true, e);
      }
  }

  /**
    Under the scheduled metric the order is: completed plates, the unused offline carts in
    configuration order, the scheduled plates in some order non-decreasing in new exposures
    (ties in any order), and the force-plug plates.
   */
  lemma ReleaseScheduled(d: Allocation.Carts, cfg: Config, nNew: map<int, nat>)
    ensures var force := cfg.forcePlugPriority;
            var completed := Part(d.keys, d.slots, force, Completed);
            var scheduled := Part(d.keys, d.slots, force, Scheduled);
            var forcePlug := Part(d.keys, d.slots, force, ForcePlug);
            exists so ::
              Sorting.SortedBy(so, ExposureKey(nNew)) && multiset(so) == multiset(scheduled)
              && Release(d, ScheduledMetric, cfg, nNew)
                 == CartsOf(completed) + Unused(cfg.offlineCarts, CartsOf(completed + so + forcePlug))
                    + CartsOf(so) + CartsOf(forcePlug)
  {
    var scheduled := Part(d.keys, d.slots, cfg.forcePlugPriority, Scheduled);
    var so := Ordered(scheduled, ScheduledMetric, nNew);
    Sorting.SortSorted(scheduled, ExposureKey(nNew));
    OrderedPermutes(scheduled, ScheduledMetric, nNew);
  }

  /**
    Under the completion metric the scheduled plates are ordered as those without incomplete sets
    by ascending completion, then those with incomplete sets by ascending completion including
    incomplete sets (ties in any order).
   */
  lemma OrderedCompletion(scheduled: seq<Entry>, nNew: map<int, nat>)
    ensures exists a, b ::
              Sorting.SortedBy(a, PlateCompletion) && multiset(a) == multiset(WithIncomplete(scheduled, false))
              && Sorting.SortedBy(b, CompletionInclIncomplete) && multiset(b) == multiset(WithIncomplete(scheduled, true))
              && Ordered(scheduled, CompletionMetric, nNew) == a + b
  {
    var a := Sorting.SortBy(WithIncomplete(scheduled, false), PlateCompletion);
    var b := Sorting.SortBy(WithIncomplete(scheduled, true), CompletionInclIncomplete);
    Sorting.SortSorted(WithIncomplete(scheduled, false), PlateCompletion);
    Sorting.SortPermutes(WithIncomplete(scheduled, false), PlateCompletion);
    Sorting.SortSorted(WithIncomplete(scheduled, true), CompletionInclIncomplete);
    Sorting.SortPermutes(WithIncomplete(scheduled, true), CompletionInclIncomplete);
    assert Ordered(scheduled, CompletionMetric, nNew) == a + b;
  }

  /**
    Under the completion metric the unused offline carts go, in reverse configuration order,
    just before the first scheduled plate with an incomplete set.
   */
  lemma AssembleCompletion(completed: seq<Entry>, so: seq<Entry>, forcePlug: seq<Entry>, offlineCarts: seq<int>)
    ensures var ii := FirstIncomplete(so);
            var unused := Unused(offlineCarts, CartsOf(completed + so + forcePlug));
            ii <= |so|
            && Assemble(completed, so, forcePlug, CompletionMetric, offlineCarts)
               == CartsOf(completed) + CartsOf(so[..ii]) + Reverse(unused) + CartsOf(so[ii..]) + CartsOf(forcePlug)
  {
    var ii := FirstIncomplete(so);
    assert so == so[..ii] + so[ii..];
    CartsOfConcat(so[..ii], so[ii..]);
    assert |CartsOf(so[..ii])| == ii;
    assert CartsOf(so)[..ii] == CartsOf(so[..ii]);
    assert CartsOf(so)[ii..] == CartsOf(so[ii..]);
  }

  /** Assembling keeps exactly the carts of the three groups and the offline carts. */
  lemma AssembleMember(completed: seq<Entry>, so: seq<Entry>, forcePlug: seq<Entry>, metric: Metric,
                       offlineCarts: seq<int>, c: int)
    ensures c in Assemble(completed, so, forcePlug, metric, offlineCarts)
            <==> c in CartsOf(completed) || c in CartsOf(so) || c in CartsOf(forcePlug) || c in offlineCarts
  {
    var used := CartsOf(completed + so + forcePlug);
    CartsOfConcat(completed + so, forcePlug);
    CartsOfConcat(completed, so);
    UnusedMember(offlineCarts, used, c);
    ReverseMember(Unused(offlineCarts, used), c);
    if metric == CompletionMetric {
      var ii := FirstIncomplete(so);
      assert CartsOf(so) == CartsOf(so)[..ii] + CartsOf(so)[ii..];
    }
  }

  /** Cart `c` holds a plate. */
  predicate Occupied(d: Allocation.Carts, c: int) {
    c in d.keys && c in d.slots && d.slots[c].Some?
  }

  /** The three groups together hold exactly the occupied carts. */
  lemma GroupsCover(d: Allocation.Carts, force: int, c: int)
    ensures c in CartsOf(Part(d.keys, d.slots, force, Completed))
            || c in CartsOf(Part(d.keys, d.slots, force, Scheduled))
            || c in CartsOf(Part(d.keys, d.slots, force, ForcePlug))
            <==> Occupied(d, c)
  {
    CartsOfMember(Part(d.keys, d.slots, force, Completed), c);
    CartsOfMember(Part(d.keys, d.slots, force, Scheduled), c);
    CartsOfMember(Part(d.keys, d.slots, force, ForcePlug), c);
    if Occupied(d, c) {
      var e := Entry(c, d.slots[c].value);
      PartMember(d.keys, d.slots, force, GroupOf(e.plate, force), e);
    }
    forall g, e | e in Part(d.keys, d.slots, force, g) && e.cart == c ensures Occupied(d, c) {
      PartMember(d.keys, d.slots, force, g, e);
    }
  }

  /** The ordered scheduled part has the carts of the scheduled plates. */
  lemma OrderedCarts(scheduled: seq<Entry>, metric: Metric, nNew: map<int, nat>, c: int)
    ensures c in CartsOf(Ordered(scheduled, metric, nNew)) <==> c in CartsOf(scheduled)
  {
    var so := Ordered(scheduled, metric, nNew);
    OrderedPermutes(scheduled, metric, nNew);
    CartsOfMember(so, c);
    CartsOfMember(scheduled, c);
    forall e | e in so ensures e in scheduled {
      assert e in multiset(so);
    }
    forall e | e in scheduled ensures e in so {
      assert e in multiset(scheduled);
    }
  }

  /** The release order lists exactly the occupied carts and the configured offline carts. */
  lemma ReleaseMember(d: Allocation.Carts, metric: Metric, cfg: Config, nNew: map<int, nat>, c: int)
    ensures c in Release(d, metric, cfg, nNew) <==> Occupied(d, c) || c in cfg.offlineCarts
  {
    var force := cfg.forcePlugPriority;
    var scheduled := Part(d.keys, d.slots, force, Scheduled);
    var so := Ordered(scheduled, metric, nNew);
    GroupsCover(d, force, c);
    OrderedCarts(scheduled, metric, nNew, c);
    AssembleMember(Part(d.keys, d.slots, force, Completed), so, Part(d.keys, d.slots, force, ForcePlug),
                   metric, cfg.offlineCarts, c);
  }
}
