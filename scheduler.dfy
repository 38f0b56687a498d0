/**
  The `Plugger` object: creation from the date arguments, `allocateCarts` phase by phase,
  `addCartOrder`, `schedule`, `_cleanUp` and `getASOutput`. Database reads, the timeline and the
  visibility window are inputs: the plugged plates, the plates at the observatory, the plates the
  timeline scheduled and the active pluggings.
 */
module Scheduler {
  import opened Wrappers
  import opened Entities
  import Classifier
  import Prioritise
  import Allocation
  import CartOrder
  import Selection

  // ---------------------------------------------------------------------------------------
  // The date arguments of `__init__`.

  /** A date of `0.` counts as no date. */
  function Given(date: Option<real>): Option<real> {
    if date == Some(0.0) then None else date
  }

  /** How the plugger is initialised: without MaNGA time, or from two Julian dates. */
  datatype Mode = NoDates | Dates(jd0: real, jd1: real)

  /**
    Both dates absent (or zero) means no MaNGA time; exactly one absent is an error; two dates
    must be in order (the assertion in `_initFromDates`).
   */
  function DateMode(startDate: Option<real>, endDate: Option<real>): (m: Result<Mode, PluggerError>)
    ensures m == Ok(NoDates) <==> Given(startDate).None? && Given(endDate).None?
    ensures m == Err(MixedDates) <==> Given(startDate).None? != Given(endDate).None?
    ensures m == Err(DatesOutOfOrder)
            <==> Given(startDate).Some? && Given(endDate).Some? && !(startDate.value < endDate.value)
    ensures m.Ok? && m.value.Dates? ==>
              startDate == Some(m.value.jd0) && endDate == Some(m.value.jd1)
              && m.value.jd0 != 0.0 && m.value.jd1 != 0.0 && m.value.jd0 < m.value.jd1
  {
    var s, e := Given(startDate), Given(endDate);
    if s.None? && e.None? then Ok(NoDates)
    else if s.None? || e.None? then Err(MixedDates)
    else if !(s.value < e.value) then Err(DatesOutOfOrder)
    else Ok(Dates(s.value, e.value))
  }

  // ---------------------------------------------------------------------------------------
  // The initial cart dictionaries.

  /** `_initNoManga`: every plugged plate that is not complete, in its active cart. */
  function PluggedCarts(pluggedPlates: seq<Plate>): (d: Allocation.Carts)
    ensures Allocation.Valid(d)
  {
    if pluggedPlates == [] then Allocation.Carts([], map[])
    else
      var p := pluggedPlates[|pluggedPlates| - 1];
      var d := PluggedCarts(pluggedPlates[..|pluggedPlates| - 1]);
      if p.isComplete then d else Allocation.Set(d, p.activeCart, Some(p))
  }

  /** A cart is a key exactly when some plugged plate that is not complete is in it. */
  lemma {:induction false} PluggedCartsKey(pluggedPlates: seq<Plate>, c: int)
    ensures c in PluggedCarts(pluggedPlates).slots
            <==> exists p :: p in pluggedPlates && !p.isComplete && p.activeCart == c
  {
    var ps := pluggedPlates;
    if ps != [] {
      var init := ps[..|ps| - 1];
      PluggedCartsKey(init, c);
      assert forall q :: q in ps <==> q in init || q == ps[|ps| - 1];
    }
  }

  /** The plate in a cart is the last plugged plate of the list that is in it and not complete. */
  lemma {:induction false} PluggedCartsLast(pluggedPlates: seq<Plate>, c: int) returns (i: nat)
    requires c in PluggedCarts(pluggedPlates).slots
    ensures i < |pluggedPlates| && PluggedCarts(pluggedPlates).slots[c] == Some(pluggedPlates[i])
    ensures !pluggedPlates[i].isComplete && pluggedPlates[i].activeCart == c
    ensures forall j :: i < j < |pluggedPlates| ==> pluggedPlates[j].isComplete || pluggedPlates[j].activeCart != c
  {
    var ps := pluggedPlates;
    var init := ps[..|ps| - 1];
    var p := ps[|ps| - 1];
    if !p.isComplete && p.activeCart == c {
      i := |ps| - 1;
    } else {
      i := PluggedCartsLast(init, c);
      assert forall j :: 0 <= j < |init| ==> ps[j] == init[j];
    }
  }

  /** `_initFromDates`: the MaNGA carts that are not offline, all empty. */
  function FreeCarts(mangaCarts: seq<int>, offlineCarts: seq<int>): (d: Allocation.Carts)
    ensures Allocation.Valid(d)
  {
    if mangaCarts == [] then Allocation.Carts([], map[])
    else
      var c := mangaCarts[|mangaCarts| - 1];
      var d := FreeCarts(mangaCarts[..|mangaCarts| - 1], offlineCarts);
      if c in offlineCarts then d else Allocation.Set(d, c, None)
  }

  lemma {:induction false} FreeCartsAt(mangaCarts: seq<int>, offlineCarts: seq<int>, c: int)
    ensures var d := FreeCarts(mangaCarts, offlineCarts);
            (c in d.slots <==> c in mangaCarts && c !in offlineCarts)
            && (c in d.slots ==> d.slots[c] == None)
  {
    if mangaCarts != [] {
      var init := mangaCarts[..|mangaCarts| - 1];
      FreeCartsAt(init, offlineCarts, c);
      assert mangaCarts == init + [mangaCarts[|mangaCarts| - 1]];
    }
  }

  /** `_nNewExposures`: plate id to the number of exposures the timeline planned (last one wins). */
  function ExposureCounts(scheduled: seq<Plate>): map<int, nat> {
    if scheduled == [] then map[]
    else
      var p := scheduled[|scheduled| - 1];
      ExposureCounts(scheduled[..|scheduled| - 1])[p.plateId := p.mockExposures]
  }

  /** A plate id has a count exactly when some scheduled plate has that id. */
  lemma {:induction false} ExposureCountsKey(scheduled: seq<Plate>, id: int)
    ensures id in ExposureCounts(scheduled) <==> exists p :: p in scheduled && p.plateId == id
  {
    var s := scheduled;
    if s != [] {
      var init := s[..|s| - 1];
      ExposureCountsKey(init, id);
      assert forall q :: q in s <==> q in init || q == s[|s| - 1];
    }
  }

  /** The count of a plate id is that of the last scheduled plate with the id. */
  lemma {:induction false} ExposureCountsLast(scheduled: seq<Plate>, id: int) returns (i: nat)
    requires id in ExposureCounts(scheduled)
    ensures i < |scheduled| && scheduled[i].plateId == id
    ensures ExposureCounts(scheduled)[id] == scheduled[i].mockExposures
    ensures forall j :: i < j < |scheduled| ==> scheduled[j].plateId != id
  {
    var s := scheduled;
    var init := s[..|s| - 1];
    if s[|s| - 1].plateId == id {
      i := |s| - 1;
    } else {
      i := ExposureCountsLast(init, id);
      assert s[i] == init[i];
    }
  }

  // ---------------------------------------------------------------------------------------
  // Removing keys: `_cleanUp`.

  /** The keys not in `drop`, in their order. */
  function KeepKeys(keys: seq<int>, drop: set<int>): seq<int> {
    if keys == [] then []
    else
      var c := keys[|keys| - 1];
      KeepKeys(keys[..|keys| - 1], drop) + if c !in drop then [c] else []
  }

  lemma {:induction false} KeepKeysMember(keys: seq<int>, drop: set<int>, c: int)
    ensures c in KeepKeys(keys, drop) <==> c in keys && c !in drop
  {
    if keys != [] {
      KeepKeysMember(keys[..|keys| - 1], drop, c);
      assert keys == keys[..|keys| - 1] + [keys[|keys| - 1]];
    }
  }

  lemma {:induction false} KeepKeysDistinct(keys: seq<int>, drop: set<int>)
    requires Allocation.Distinct(keys)
    ensures Allocation.Distinct(KeepKeys(keys, drop))
  {
    if keys != [] {
      var init := keys[..|keys| - 1];
      var c := keys[|keys| - 1];
      KeepKeysDistinct(init, drop);
      KeepKeysMember(init, drop, c);
      assert c !in init;
    }
  }

  lemma {:induction false} KeepKeysTwice(keys: seq<int>, a: set<int>, b: set<int>)
    ensures KeepKeys(KeepKeys(keys, a), b) == KeepKeys(keys, a + b)
  {
    if keys != [] {
      var init := keys[..|keys| - 1];
      var c := keys[|keys| - 1];
      KeepKeysTwice(init, a, b);
      var x := KeepKeys(init, a);
      if c !in a {
        assert (x + [c])[..|x|] == x;
        assert KeepKeys(x + [c], b) == KeepKeys(x, b) + if c !in b then [c] else [];
      } else {
        assert KeepKeys(keys, a) == x + [] == x;
        assert c in a + b;
        assert KeepKeys(keys, a + b) == KeepKeys(init, a + b) + [] == KeepKeys(init, a + b);
      }
    }
  }

  lemma {:induction false} KeepKeysNothing(keys: seq<int>)
    ensures KeepKeys(keys, {}) == keys
  {
    if keys != [] {
      KeepKeysNothing(keys[..|keys| - 1]);
      assert keys == keys[..|keys| - 1] + [keys[|keys| - 1]];
    }
  }

  /** `self.carts.pop(c)`. */
  function Pop(d: Allocation.Carts, c: int): Allocation.Carts {
    Allocation.Carts(KeepKeys(d.keys, {c}), d.slots - {c})
  }

  /** The keys whose value is `None`. */
  ghost function NoneKeys(d: Allocation.Carts): set<int> {
    set c | c in d.slots && d.slots[c].None?
  }

  /** The dictionary without its `None` entries, as `_cleanUp` leaves it. */
  ghost function Compact(d: Allocation.Carts): Allocation.Carts {
    Allocation.Carts(KeepKeys(d.keys, NoneKeys(d)), d.slots - NoneKeys(d))
  }

  /** Compacting removes exactly the empty carts, keeps every plate where it was and keeps the order. */
  lemma CompactSpec(d: Allocation.Carts)
    requires Allocation.Valid(d)
    ensures var e := Compact(d);
            Allocation.Valid(e)
            && (forall c :: c in e.slots <==> c in d.slots && d.slots[c].Some?)
            && (forall c :: c in e.slots ==> e.slots[c] == d.slots[c])
  {
    var e := Compact(d);
    KeepKeysDistinct(d.keys, NoneKeys(d));
    forall c ensures c in e.slots <==> c in e.keys {
      KeepKeysMember(d.keys, NoneKeys(d), c);
    }
  }

  /** The keys among `keys` whose value is `None`, in their order (`keysToRemove`). */
  function EmptyKeys(keys: seq<int>, slots: map<int, Option<Plate>>): seq<int> {
    if keys == [] then []
    else
      var c := keys[|keys| - 1];
      EmptyKeys(keys[..|keys| - 1], slots) + if c in slots && slots[c].None? then [c] else []
  }

  lemma {:induction false} EmptyKeysMember(keys: seq<int>, slots: map<int, Option<Plate>>, c: int)
    ensures c in EmptyKeys(keys, slots) <==> c in keys && c in slots && slots[c].None?
  {
    if keys != [] {
      EmptyKeysMember(keys[..|keys| - 1], slots, c);
      assert keys == keys[..|keys| - 1] + [keys[|keys| - 1]];
    }
  }

  ghost function Elements(s: seq<int>): set<int> {
    set c | c in s
  }

  // ---------------------------------------------------------------------------------------
  // The final output.

  /** The final `'cart_order'`: APOGEE carts reversed, MaNGA carts not yet listed, the previous order. */
  function FinalOrder(cfg: Config, order: seq<int>): seq<int> {
    CartOrder.Reverse(cfg.apogeeCarts) + CartOrder.Unused(cfg.mangaCarts, order) + order
  }

  /**
    The final order starts with the APOGEE carts last to first, continues with the MaNGA carts
    not in the previous order, ends with the previous order, and lists every APOGEE cart, every
    MaNGA cart and nothing else.
   */
  lemma FinalOrderSpec(cfg: Config, order: seq<int>, c: int)
    ensures var o := FinalOrder(cfg, order);
            o[|o| - |order|..] == order
            && o[|cfg.apogeeCarts|..|o| - |order|] == CartOrder.Unused(cfg.mangaCarts, order)
            && (forall i :: 0 <= i < |cfg.apogeeCarts| ==> o[i] == cfg.apogeeCarts[|cfg.apogeeCarts| - 1 - i])
            && (c in o <==> c in cfg.apogeeCarts || c in cfg.mangaCarts || c in order)
  {
    var o := FinalOrder(cfg, order);
    CartOrder.ReverseMember(cfg.apogeeCarts, c);
    CartOrder.UnusedMember(cfg.mangaCarts, order, c);
    ReverseAt(cfg.apogeeCarts);
  }

  lemma {:induction false} ReverseAt(s: seq<int>)
    ensures forall i :: 0 <= i < |s| ==> CartOrder.Reverse(s)[i] == s[|s| - 1 - i]
  {
    if s != [] {
      ReverseAt(s[..|s| - 1]);
    }
  }

  /**
    After an allocation the published order lists exactly the APOGEE carts, the MaNGA carts,
    the offline carts and the occupied carts.
   */
  lemma OutputOrderMember(cfg: Config, d: Allocation.Carts, metric: CartOrder.Metric, nNew: map<int, nat>, c: int)
    ensures c in FinalOrder(cfg, CartOrder.Release(d, metric, cfg, nNew))
            <==> c in cfg.apogeeCarts || c in cfg.mangaCarts || c in cfg.offlineCarts || CartOrder.Occupied(d, c)
  {
    FinalOrderSpec(cfg, CartOrder.Release(d, metric, cfg, nNew), c);
    CartOrder.ReleaseMember(d, metric, cfg, nNew, c);
  }

  /** The plate id of an occupied cart, `None` for an empty one. */
  function PlateId(slot: Option<Plate>): Option<int> {
    match slot
    case None => None
    case Some(p) => Some(p.plateId)
  }

  /** The cart dictionary with plates replaced by their ids. */
  ghost function PlateIds(d: Allocation.Carts): map<int, Option<int>> {
    map c | c in d.slots :: PlateId(d.slots[c])
  }

  /** What `getASOutput` returns: the cart dictionary with plate ids, and its `'cart_order'`. */
  datatype ASOutput = ASOutput(keys: seq<int>, plateIds: map<int, Option<int>>, cartOrder: seq<int>)

  // ---------------------------------------------------------------------------------------
  // The plugger.

  class Plugger {
    const config: Config
    var startDate: Option<real>
    var endDate: Option<real>
    /** `self.carts` without its `'cart_order'` entry. */
    var carts: Allocation.Carts
    /** `self.carts['cart_order']`, when present. */
    var cartOrder: Option<seq<int>>
    var nNewExposures: map<int, nat>
    var platesToSchedule: seq<Plate>

    ghost predicate Valid()
      reads this
    {
      Allocation.Valid(carts)
    }

    /** The fields no allocation step touches. */
    ghost function Settings(): (map<int, nat>, Option<real>, Option<real>, seq<Plate>)
      reads this
    {
      (nNewExposures, startDate, endDate, platesToSchedule)
    }

    /** `_initNoManga`, given the plugged plates. */
    constructor InitNoManga(cfg: Config, pluggedPlates: seq<Plate>)
      ensures config == cfg && startDate == None && endDate == None
      ensures nNewExposures == map[] && platesToSchedule == []
      ensures carts == PluggedCarts(pluggedPlates)
      ensures cartOrder == Some(CartOrder.Release(carts, CartOrder.CompletionMetric, cfg, map[]))
      ensures Valid()
    {
      config := cfg;
      startDate, endDate := None, None;
      carts := Allocation.Carts([], map[]);
      nNewExposures := map[];
      cartOrder := None;
      platesToSchedule := [];
      new;
      for i := 0 to |pluggedPlates|
        invariant carts == PluggedCarts(pluggedPlates[..i])
        invariant config == cfg && startDate == None && endDate == None
        invariant nNewExposures == map[] && platesToSchedule == [] && cartOrder == None
      {
        assert pluggedPlates[..i + 1][..i] == pluggedPlates[..i];
        var plate := pluggedPlates[i];
        if !plate.isComplete {
          carts := Allocation.Set(carts, plate.activeCart, Some(plate));
        }
      }
      assert pluggedPlates[..|pluggedPlates|] == pluggedPlates;
      var added := AddCartOrder(CartOrder.CompletionMetric);
    }

    /** `_initFromDates`, given the plates at the observatory (the assertion is the precondition). */
    constructor InitFromDates(cfg: Config, jd0: real, jd1: real, platesAtAPO: seq<Plate>)
      requires jd0 < jd1
      ensures config == cfg && startDate == Some(jd0) && endDate == Some(jd1)
      ensures platesToSchedule == Selection.Selected(platesAtAPO, cfg)
      ensures carts == FreeCarts(cfg.mangaCarts, cfg.offlineCarts) && cartOrder == None && nNewExposures == map[]
      ensures Valid()
    {
      config := cfg;
      startDate, endDate := Some(jd0), Some(jd1);
      var selected := Selection.SelectPlates(platesAtAPO, cfg);
      platesToSchedule := selected;
      carts := FreeCarts(cfg.mangaCarts, cfg.offlineCarts);
      nNewExposures := map[];
      cartOrder := None;
    }

    /**
      `addCartOrder(metric)`: writes the release order; the `'cart_order'` entry, when already
      present, is met where a plate is expected, which fails.
     */
    method AddCartOrder(metric: CartOrder.Metric) returns (r: Result<(), PluggerError>)
      modifies this
      ensures carts == old(carts) && Settings() == old(Settings())
      ensures old(cartOrder).Some? ==> r == Err(CartOrderIsNotAPlate) && cartOrder == old(cartOrder)
      ensures old(cartOrder).None? ==>
                r == Ok(()) && cartOrder == Some(CartOrder.Release(carts, metric, config, nNewExposures))
    {
      if cartOrder.Some? {
        return Err(CartOrderIsNotAPlate);
      }
      var order := CartOrder.OrderCarts(carts, metric, config, nNewExposures);
      cartOrder := Some(order);
      return Ok(());
    }

    /** The offline pass: `self.carts[pk] = None` for every active plugging whose key is offline. */
    method MarkOfflinePluggings(aps: seq<ActivePlugging>)
      modifies this
      requires Valid()
      ensures Valid() && carts == Allocation.MarkOffline(old(carts), aps, config.offlineCarts)
      ensures Settings() == old(Settings()) && cartOrder == old(cartOrder)
    {
      ghost var d0 := carts;
      for k := 0 to |aps|
        invariant Valid()
        invariant Allocation.MarkOffline(d0, aps, config.offlineCarts)
                  == Allocation.MarkOffline(carts, aps[k..], config.offlineCarts)
        invariant Settings() == old(Settings()) && cartOrder == old(cartOrder)
      {
        assert aps[k..][1..] == aps[k + 1..];
        if aps[k].pk in config.offlineCarts {
          carts := Allocation.Set(carts, aps[k].pk, None);
        }
      }
    }

    /** Phase 1: every plugged plate goes to its active cart, whose status is popped. */
    method PlacePluggedPlates(plates: seq<Plate>, cartStatus: seq<CartStatus>)
      returns (r: Result<Allocation.Run, PluggerError>)
      modifies this
      requires Valid()
      ensures Valid() && Settings() == old(Settings()) && cartOrder == old(cartOrder)
      ensures r == Allocation.Place(Allocation.Run(old(carts), cartStatus, [], map[]), plates)
      ensures r.Ok? ==> carts == r.value.carts
    {
      var pending, allocatedPlates, cartPlateMessage := cartStatus, [], map[];
      for i := 0 to |plates|
        invariant Valid() && Settings() == old(Settings()) && cartOrder == old(cartOrder)
        invariant Allocation.Place(Allocation.Run(old(carts), cartStatus, [], map[]), plates)
                  == Allocation.Place(Allocation.Run(carts, pending, allocatedPlates, cartPlateMessage), plates[i..])
      {
        ghost var before := Allocation.Run(carts, pending, allocatedPlates, cartPlateMessage);
        assert plates[i..][0] == plates[i] && plates[i..][1..] == plates[i + 1..];
        var plate := plates[i];
        if plate.isPlugged {
          var cartNumber := plate.activeCart;
          carts := Allocation.Set(carts, cartNumber, Some(plate));
          cartPlateMessage := cartPlateMessage[cartNumber := CartMessage(Some(plate), AlreadyPlugged)];
          allocatedPlates := allocatedPlates + [plate];
          if Allocation.FindCart(pending, cartNumber).None? {
            assert Allocation.PlaceStep(before, plate) == Err(PluggedCartUnavailable(cartNumber));
            return Err(PluggedCartUnavailable(cartNumber));
          }
          pending := Allocation.WithoutCart(pending, cartNumber);
        }
      }
      return Ok(Allocation.Run(carts, pending, allocatedPlates, cartPlateMessage));
    }

    /**
      Phase 2: every replug not yet allocated goes back to the cart of its last plugging unless
      that cart is offline; the cart's status is looked up before anything is checked.
     */
    method ReplugPlates(plates: seq<Plate>, r1: Allocation.Run) returns (r: Result<Allocation.Run, PluggerError>)
      modifies this
      requires Valid() && carts == r1.carts
      ensures Valid() && Settings() == old(Settings()) && cartOrder == old(cartOrder)
      ensures r == Allocation.Replug(r1, plates, config.offlineCarts)
      ensures r.Ok? ==> carts == r.value.carts
    {
      var pending, allocatedPlates, cartPlateMessage := r1.pending, r1.allocatedPlates, r1.messages;
      for i := 0 to |plates|
        invariant Valid() && Settings() == old(Settings()) && cartOrder == old(cartOrder)
        invariant Allocation.Replug(r1, plates, config.offlineCarts)
                  == Allocation.Replug(Allocation.Run(carts, pending, allocatedPlates, cartPlateMessage),
                                       plates[i..], config.offlineCarts)
      {
        ghost var before := Allocation.Run(carts, pending, allocatedPlates, cartPlateMessage);
        assert plates[i..][0] == plates[i] && plates[i..][1..] == plates[i + 1..];
        var plate := plates[i];
        if plate in allocatedPlates {
          continue;
        }
        if plate.isReplug {
          var cartNumber := Classifier.GetCartForReplug(plate);
          if cartNumber.None? {
            return Err(ReplugCartUnavailable(None));
          }
          var status := Allocation.FindCart(pending, cartNumber.value);
          if status.None? {
            return Err(ReplugCartUnavailable(cartNumber));
          }
          var statusCode := status.value.code;
          if cartNumber.value !in config.offlineCarts {
            carts := Allocation.Set(carts, cartNumber.value, Some(plate));
            allocatedPlates := allocatedPlates + [plate];
            cartPlateMessage := cartPlateMessage[cartNumber.value := CartMessage(Some(plate), Replacing(statusCode))];
            pending := Allocation.WithoutCart(pending, cartNumber.value);
          }
        }
      }
      return Ok(Allocation.Run(carts, pending, allocatedPlates, cartPlateMessage));
    }

    /** Phase 3: every plate not yet allocated takes the first prioritised cart, which is popped. */
    method FillPlates(plates: seq<Plate>, r2: Allocation.Run) returns (r: Result<Allocation.Run, PluggerError>)
      modifies this
      requires Valid() && carts == r2.carts
      ensures Valid() && Settings() == old(Settings()) && cartOrder == old(cartOrder)
      ensures r == Allocation.Fill(r2, plates)
      ensures r.Ok? ==> carts == r.value.carts
    {
      var sortedCarts, allocatedPlates, cartPlateMessage := r2.pending, r2.allocatedPlates, r2.messages;
      for i := 0 to |plates|
        invariant Valid() && Settings() == old(Settings()) && cartOrder == old(cartOrder)
        invariant Allocation.Fill(r2, plates)
                  == Allocation.Fill(Allocation.Run(carts, sortedCarts, allocatedPlates, cartPlateMessage), plates[i..])
      {
        assert plates[i..][0] == plates[i] && plates[i..][1..] == plates[i + 1..];
        var plate := plates[i];
        if plate in allocatedPlates {
          continue;
        }
        if sortedCarts == [] {
          return Err(NoCartLeft);
        }
        var cart := sortedCarts[0];
        assert Allocation.WithoutCart(sortedCarts, cart.cart) == sortedCarts[1..];
        sortedCarts := sortedCarts[1..];
        carts := Allocation.Set(carts, cart.cart, Some(plate));
        allocatedPlates := allocatedPlates + [plate];
        cartPlateMessage := cartPlateMessage[cart.cart := CartMessage(Some(plate), Replacing(cart.code))];
      }
      return Ok(Allocation.Run(carts, sortedCarts, allocatedPlates, cartPlateMessage));
    }

    /** The leftover carts: unplug, keep the plate, or do nothing, with a message for each. */
    method CheckLeftover(r3: Allocation.Run) returns (t: Allocation.Run)
      modifies this
      requires Valid() && carts == r3.carts
      ensures Valid() && Settings() == old(Settings()) && cartOrder == old(cartOrder)
      ensures t == Allocation.Dispose(r3, r3.pending) && carts == t.carts
    {
      var sortedCarts := r3.pending;
      var cartPlateMessage := r3.messages;
      for k := 0 to |sortedCarts|
        invariant Valid() && Settings() == old(Settings()) && cartOrder == old(cartOrder)
        invariant Allocation.Dispose(r3, sortedCarts)
                  == Allocation.Dispose(r3.(carts := carts, messages := cartPlateMessage), sortedCarts[k..])
      {
        assert sortedCarts[k..][0] == sortedCarts[k] && sortedCarts[k..][1..] == sortedCarts[k + 1..];
        var cart := sortedCarts[k];
        if cart.completion >= 1.0 {
          cartPlateMessage := cartPlateMessage[cart.cart := CartMessage(cart.plate, Unplug)];
          continue;
        }
        if cart.statusLabel != NoMaNGAPlate && cart.plate.Some? {
          carts := Allocation.Set(carts, cart.cart, cart.plate);
          if cart.plate.value.isPlugged {
            cartPlateMessage := cartPlateMessage[cart.cart := CartMessage(cart.plate, AlreadyPlugged)];
          } else {
            cartPlateMessage := cartPlateMessage[cart.cart := CartMessage(cart.plate, Unchanged)];
          }
        } else {
          cartPlateMessage := cartPlateMessage[cart.cart := CartMessage(cart.plate, NotDoingAnything)];
        }
      }
      t := r3.(carts := carts, messages := cartPlateMessage);
    }

    /** The three phases and the leftover pass of `allocateCarts`, from the start run `r0`. */
    method RunPhases(ps: seq<Plate>, r0: Allocation.Run) returns (r: Result<Allocation.Run, PluggerError>)
      modifies this
      requires Valid() && carts == r0.carts && r0.allocatedPlates == [] && r0.messages == map[]
      ensures Valid() && Settings() == old(Settings()) && cartOrder == old(cartOrder)
      ensures r == Allocation.Phases(r0, ps, config.offlineCarts)
      ensures r.Ok? ==> carts == r.value.carts
    {
      var r1 := PlacePluggedPlates(ps, r0.pending);
      if r1.Err? {
        return Err(r1.error);
      }
      var r2 := ReplugPlates(ps, r1.value);
      if r2.Err? {
        return Err(r2.error);
      }
      var sortedCarts := Prioritise.PrioritiseCarts(r2.value.pending);
      var r3 := FillPlates(ps, r2.value.(pending := sortedCarts));
      if r3.Err? {
        return Err(r3.error);
      }
      var t := CheckLeftover(r3.value);
      return Ok(t);
    }


    /** The start of `allocateCarts`: the offline pass, then the status of every free cart. */
    method StartRun(aps: seq<ActivePlugging>) returns (r: Result<Allocation.Run, PluggerError>)
      modifies this
      requires Valid()
      ensures Valid() && Settings() == old(Settings()) && cartOrder == old(cartOrder)
      ensures r == Allocation.Start(old(carts), aps, config.offlineCarts)
      ensures r.Ok? ==> carts == r.value.carts && r.value.allocatedPlates == [] && r.value.messages == map[]
    {
      MarkOfflinePluggings(aps);
      var statuses := Allocation.Statuses(carts.keys, carts, aps);
      if statuses.Err? {
        return Err(statuses.error);
      }
      return Ok(Allocation.Run(carts, statuses.value, [], map[]));
    }

    /** `allocateCarts(plates)` up to the release order: the dictionary as the allocation specifies. */
    method AllocatePlates(plates: seq<Plate>, aps: seq<ActivePlugging>) returns (r: Result<Allocation.Outcome, PluggerError>)
      modifies this
      requires Valid()
      ensures Valid() && Settings() == old(Settings()) && cartOrder == old(cartOrder)
      ensures r == Allocation.Allocate(old(carts), old(cartOrder).Some?, plates, aps, config.offlineCarts)
      ensures r.Ok? ==> carts == r.value.run.carts
    {
      var n := |carts.keys| + if cartOrder.Some? then 1 else 0;
      var start := StartRun(aps);
      if start.Err? {
        return Err(start.error);
      }
      var t := RunPhases(Allocation.Candidates(plates, n), start.value);
      r := Allocation.Conclude(plates, n, t);
    }

    /**
      `allocateCarts(plates)`: the dictionary ends as the allocation specifies it, and the release
      order for the scheduled metric is written.
     */
    method AllocateCarts(plates: seq<Plate>, aps: seq<ActivePlugging>) returns (r: Result<Allocation.Outcome, PluggerError>)
      modifies this
      requires Valid()
      ensures Valid() && Settings() == old(Settings())
      ensures var a := Allocation.Allocate(old(carts), old(cartOrder).Some?, plates, aps, config.offlineCarts);
              (a.Err? ==> r == Err(a.error) && cartOrder == old(cartOrder))
              && (a.Ok? ==> carts == a.value.run.carts)
              && (a.Ok? && old(cartOrder).Some? ==> r == Err(CartOrderIsNotAPlate) && cartOrder == old(cartOrder))
              && (a.Ok? && old(cartOrder).None? ==>
                    r == Ok(a.value)
                    && cartOrder == Some(CartOrder.Release(carts, CartOrder.ScheduledMetric, config, nNewExposures)))
    {
      r := AllocatePlates(plates, aps);
      if r.Err? {
        return;
      }
      var added := AddCartOrder(CartOrder.ScheduledMetric);
      if added.Err? {
        return Err(added.error);
      }
    }

    /** The first loop of `_cleanUp`: the keys whose value is `None`, in key order. */
    method EmptyCartKeys() returns (keysToRemove: seq<int>)
      ensures keysToRemove == EmptyKeys(carts.keys, carts.slots)
    {
      keysToRemove := [];
      for i := 0 to |carts.keys|
        invariant keysToRemove == EmptyKeys(carts.keys[..i], carts.slots)
      {
        assert carts.keys[..i + 1][..i] == carts.keys[..i];
        var key := carts.keys[i];
        if key in carts.slots && carts.slots[key].None? {
          keysToRemove := keysToRemove + [key];
        }
      }
      assert carts.keys[..|carts.keys|] == carts.keys;
    }

    /** The second loop of `_cleanUp`: pops every key listed. */
    method PopAll(keysToRemove: seq<int>)
      modifies this
      ensures carts == Allocation.Carts(KeepKeys(old(carts).keys, Elements(keysToRemove)),
                                        old(carts).slots - Elements(keysToRemove))
      ensures Settings() == old(Settings()) && cartOrder == old(cartOrder)
    {
      ghost var d0 := carts;
      KeepKeysNothing(d0.keys);
      assert Elements(keysToRemove[..0]) == {};
      assert d0.slots - {} == d0.slots;
      for j := 0 to |keysToRemove|
        invariant carts == Allocation.Carts(KeepKeys(d0.keys, Elements(keysToRemove[..j])),
                                            d0.slots - Elements(keysToRemove[..j]))
        invariant Settings() == old(Settings()) && cartOrder == old(cartOrder)
      {
        var key := keysToRemove[j];
        KeepKeysTwice(d0.keys, Elements(keysToRemove[..j]), {key});
        assert Elements(keysToRemove[..j + 1]) == Elements(keysToRemove[..j]) + {key} by {
          assert keysToRemove[..j + 1] == keysToRemove[..j] + [key];
        }
        carts := Pop(carts, key);
      }
      assert keysToRemove[..|keysToRemove|] == keysToRemove;
    }

    /** `_cleanUp`: removes the keys whose value is `None`. */
    method CleanUp()
      modifies this
      requires Valid()
      ensures Valid() && carts == Compact(old(carts))
      ensures Settings() == old(Settings()) && cartOrder == old(cartOrder)
    {
      ghost var d0 := carts;
      var keysToRemove := EmptyCartKeys();
      assert Elements(keysToRemove) == NoneKeys(d0) by {
        forall c ensures c in keysToRemove <==> c in NoneKeys(d0) {
          EmptyKeysMember(d0.keys, d0.slots, c);
        }
      }
      PopAll(keysToRemove);
      CompactSpec(d0);
    }

    /**
      `schedule`, given the plates the timeline scheduled: records their planned exposures,
      allocates the carts and, when that succeeds, removes the empty carts.
     */
    method Schedule(scheduled: seq<Plate>, aps: seq<ActivePlugging>) returns (r: Result<Allocation.Outcome, PluggerError>)
      modifies this
      requires Valid()
      ensures Valid() && nNewExposures == ExposureCounts(scheduled)
      ensures startDate == old(startDate) && endDate == old(endDate) && platesToSchedule == old(platesToSchedule)
      ensures var a := Allocation.Allocate(old(carts), old(cartOrder).Some?, scheduled, aps, config.offlineCarts);
              (a.Err? ==> r == Err(a.error))
              && (a.Ok? && old(cartOrder).Some? ==> r == Err(CartOrderIsNotAPlate))
              && (a.Ok? && old(cartOrder).None? ==>
                    r == Ok(a.value) && carts == Compact(a.value.run.carts)
                    && cartOrder == Some(CartOrder.Release(a.value.run.carts, CartOrder.ScheduledMetric, config,
                                                           ExposureCounts(scheduled))))
    {
      nNewExposures := ExposureCounts(scheduled);
      r := AllocateCarts(scheduled, aps);
      if r.Ok? {
        CleanUp();
      }
    }

    /** The loop that swaps plates for plate ids, into a copy of the dictionary. */
    method PlateIdsOf() returns (ids: map<int, Option<int>>)
      requires Valid()
      ensures ids == PlateIds(carts)
    {
      ids := map[];
      for i := 0 to |carts.keys|
        invariant forall c :: c in ids <==> c in carts.keys[..i]
        invariant forall c :: c in ids ==> c in carts.slots && ids[c] == PlateId(carts.slots[c])
      {
        var key := carts.keys[i];
        assert carts.keys[..i + 1] == carts.keys[..i] + [key];
        ids := ids[key := PlateId(carts.slots[key])];
      }
      assert carts.keys[..|carts.keys|] == carts.keys;
      forall c ensures c in ids <==> c in PlateIds(carts) {
        assert c in carts.slots <==> c in carts.keys;
      }
      assert forall c :: c in ids ==> ids[c] == PlateIds(carts)[c];
    }

    /** The part of `getASOutput` after scheduling: completes the release order and swaps in plate ids. */
    method FinishOutput() returns (r: Result<ASOutput, PluggerError>)
      modifies this
      requires Valid()
      ensures carts == old(carts) && Settings() == old(Settings())
      ensures old(cartOrder).None? ==> r == Err(NoCartOrder) && cartOrder == old(cartOrder)
      ensures old(cartOrder).Some? ==>
                cartOrder == Some(FinalOrder(config, old(cartOrder).value))
                && r == Ok(ASOutput(carts.keys, PlateIds(carts), cartOrder.value))
    {
      if cartOrder.None? {
        return Err(NoCartOrder);
      }
      var nonUsedCarts := CartOrder.Unused(config.mangaCarts, cartOrder.value);
      cartOrder := Some(nonUsedCarts + cartOrder.value);
      cartOrder := Some(CartOrder.Reverse(config.apogeeCarts) + cartOrder.value);
      assert CartOrder.Reverse(config.apogeeCarts) + (nonUsedCarts + old(cartOrder).value)
             == FinalOrder(config, old(cartOrder).value);
      var ids := PlateIdsOf();
      return Ok(ASOutput(carts.keys, ids, cartOrder.value));
    }

    /** `getASOutput`: schedules first when both dates are set. */
    method GetASOutput(scheduled: seq<Plate>, aps: seq<ActivePlugging>) returns (r: Result<ASOutput, PluggerError>)
      modifies this
      requires Valid()
      ensures Valid()
      ensures old(startDate).None? || old(endDate).None? ==>
                carts == old(carts)
                && (old(cartOrder).None? ==> r == Err(NoCartOrder))
                && (old(cartOrder).Some? ==>
                      cartOrder == Some(FinalOrder(config, old(cartOrder).value))
                      && r == Ok(ASOutput(carts.keys, PlateIds(carts), cartOrder.value)))
      ensures old(startDate).Some? && old(endDate).Some? ==>
                var a := Allocation.Allocate(old(carts), old(cartOrder).Some?, scheduled, aps, config.offlineCarts);
                (a.Err? ==> r == Err(a.error))
                && (a.Ok? && old(cartOrder).Some? ==> r == Err(CartOrderIsNotAPlate))
                && (a.Ok? && old(cartOrder).None? ==>
                      carts == Compact(a.value.run.carts)
                      && cartOrder == Some(FinalOrder(config, CartOrder.Release(a.value.run.carts, CartOrder.ScheduledMetric,
                                                                                config, ExposureCounts(scheduled))))
                      && r == Ok(ASOutput(carts.keys, PlateIds(carts), cartOrder.value)))
    {
      if startDate.Some? && endDate.Some? {
        var s := Schedule(scheduled, aps);
        if s.Err? {
          return Err(s.error);
        }
      }
      r := FinishOutput();
    }
  }

  /** `Plugger(startDate, endDate)`: the date check, then one of the two initialisations. */
  method NewPlugger(cfg: Config, startDate: Option<real>, endDate: Option<real>, pluggedPlates: seq<Plate>,
                    platesAtAPO: seq<Plate>) returns (r: Result<Plugger, PluggerError>)
    ensures DateMode(startDate, endDate).Err? ==> r == Err(DateMode(startDate, endDate).error)
    ensures DateMode(startDate, endDate) == Ok(NoDates) ==>
              r.Ok? && fresh(r.value) && r.value.Valid() && r.value.startDate.None? && r.value.endDate.None?
              && r.value.carts == PluggedCarts(pluggedPlates)
              && r.value.cartOrder == Some(CartOrder.Release(r.value.carts, CartOrder.CompletionMetric, cfg, map[]))
    ensures DateMode(startDate, endDate).Ok? && DateMode(startDate, endDate).value.Dates? ==>
              r.Ok? && fresh(r.value) && r.value.Valid()
              && r.value.startDate == startDate && r.value.endDate == endDate
              && r.value.carts == FreeCarts(cfg.mangaCarts, cfg.offlineCarts) && r.value.cartOrder == None
              && r.value.platesToSchedule == Selection.Selected(platesAtAPO, cfg)
  {
    var mode := DateMode(startDate, endDate);
    if mode.Err? {
      r := Err(mode.error);
    } else if mode.value.NoDates? {
      var p := new Plugger.InitNoManga(cfg, pluggedPlates);
      r := Ok(p);
    } else {
      var p := new Plugger.InitFromDates(cfg, mode.value.jd0, mode.value.jd1, platesAtAPO);
      r := Ok(p);
    }
  }
}
