/**
  Cart classification and the two cart lookups: `getCartStatus`, `getCartPlate` and
  `getCartForReplug`.
 */
module Classifier {
  import opened Wrappers
  import opened Entities

  /** The active pluggings whose cart is `cart`, in their order in `aps`. */
  function CartPluggings(aps: seq<ActivePlugging>, cart: int): seq<ActivePlugging> {
    if aps == [] then [] else (if aps[0].cart == cart then [aps[0]] else []) + CartPluggings(aps[1..], cart)
  }

  lemma {:induction false} CartPluggingsMember(aps: seq<ActivePlugging>, cart: int, ap: ActivePlugging)
    ensures ap in CartPluggings(aps, cart) <==> ap in aps && ap.cart == cart
  {
    if aps != [] {
      CartPluggingsMember(aps[1..], cart, ap);
      assert aps == [aps[0]] + aps[1..];
    }
  }

  /** Two different active pluggings occupy `cart`. */
  predicate Conflicting(aps: seq<ActivePlugging>, cart: int) {
    exists i, j :: 0 <= i < j < |aps| && aps[i].cart == cart && aps[j].cart == cart
  }

  /**
    The status 5-tuple of `cart`. An empty cart, a non-MaNGA plate, a complete MaNGA plate,
    a MaNGA plate not started and a started MaNGA plate give codes 0 to 4; a cart with more
    than one active plugging is an error. The `unknown` tuple (code 10) that follows the last
    `return` of the original is unreachable and is not produced.
   */
  function GetCartStatus(aps: seq<ActivePlugging>, cart: int): (r: Result<CartStatus, PluggerError>)
    ensures r.Err? ==> r.error == MultipleActivePluggings(cart)
    ensures r.Ok? ==> r.value.cart == cart && 0 <= r.value.code <= 4
    ensures r.Ok? ==> CodeLabel(r.value.code) == Some(r.value.statusLabel)
    ensures r.Ok? ==> (r.value.plate.None? <==> r.value.code == 0)
  {
    var found := CartPluggings(aps, cart);
    if |found| == 0 then Ok(CartStatus(cart, None, 0, Empty, 0.0))
    else if |found| > 1 then Err(MultipleActivePluggings(cart))
    else
      var plate := found[0].plate;
      if !plate.isMaNGA then Ok(CartStatus(cart, Some(plate), 1, NoMaNGAPlate, 0.0))
      else if plate.isComplete then Ok(CartStatus(cart, Some(plate), 2, MaNGAComplete, 1.0))
      else if plate.completion == 0.0 then Ok(CartStatus(cart, Some(plate), 3, MaNGANoStarted, 0.0))
      else Ok(CartStatus(cart, Some(plate), 4, MaNGAStarted, plate.completion))
  }

  /** The plate of the first active plugging in `cart`, or `None`. */
  function GetCartPlate(aps: seq<ActivePlugging>, cart: int): (r: Option<Plate>)
    ensures r.None? <==> forall ap :: ap in aps ==> ap.cart != cart
    ensures r.Some? ==> exists i :: 0 <= i < |aps| && aps[i].cart == cart && aps[i].plate == r.value
                                  && forall j :: 0 <= j < i ==> aps[j].cart != cart
  {
    if aps == [] then None
    else if aps[0].cart == cart then Some(aps[0].plate)
    else
      var r := GetCartPlate(aps[1..], cart);
      assert r.Some? ==> exists i :: 0 <= i < |aps[1..]| && aps[1..][i].cart == cart && aps[1..][i].plate == r.value
                                  && forall j :: 0 <= j < i ==> aps[1..][j].cart != cart;
      assert r.Some? ==> exists i :: 1 <= i < |aps| && aps[i].cart == cart && aps[i].plate == r.value
                                  && forall j :: 0 <= j < i ==> aps[j].cart != cart;
      r
  }

  lemma {:induction false} CartPluggingsHead(aps: seq<ActivePlugging>, cart: int)
    requires |CartPluggings(aps, cart)| > 0
    ensures GetCartPlate(aps, cart) == Some(CartPluggings(aps, cart)[0].plate)
  {
    if aps[0].cart != cart {
      CartPluggingsHead(aps[1..], cart);
    }
  }

  lemma {:induction false} ConflictingHasTwo(aps: seq<ActivePlugging>, cart: int)
    requires Conflicting(aps, cart)
    ensures |CartPluggings(aps, cart)| > 1
  {
    var i, j :| 0 <= i < j < |aps| && aps[i].cart == cart && aps[j].cart == cart;
    var rest := aps[1..];
    if i == 0 {
      CartPluggingsMember(rest, cart, rest[j - 1]);
    } else {
      assert rest[i - 1].cart == cart && rest[j - 1].cart == cart;
      ConflictingHasTwo(rest, cart);
    }
  }

  lemma {:induction false} TwoIsConflicting(aps: seq<ActivePlugging>, cart: int)
    requires |CartPluggings(aps, cart)| > 1
    ensures Conflicting(aps, cart)
  {
    var rest := aps[1..];
    if aps[0].cart == cart {
      var ap := CartPluggings(rest, cart)[0];
      CartPluggingsMember(rest, cart, ap);
      var j :| 0 <= j < |rest| && rest[j] == ap;
      assert aps[0].cart == cart && aps[j + 1].cart == cart;
    } else {
      TwoIsConflicting(rest, cart);
      var i, j :| 0 <= i < j < |rest| && rest[i].cart == cart && rest[j].cart == cart;
      assert aps[i + 1] == rest[i] && aps[j + 1] == rest[j];
    }
  }

  /** A cart no active plugging occupies is `(cart, None, 0, 'empty', 0)`, and only such a cart. */
  lemma EmptyCartStatus(aps: seq<ActivePlugging>, cart: int)
    ensures (forall ap :: ap in aps ==> ap.cart != cart)
        <==> GetCartStatus(aps, cart) == Ok(CartStatus(cart, None, 0, Empty, 0.0))
  {
    if exists ap :: ap in aps && ap.cart == cart {
      var ap :| ap in aps && ap.cart == cart;
      CartPluggingsMember(aps, cart, ap);
    } else if |CartPluggings(aps, cart)| > 0 {
      CartPluggingsMember(aps, cart, CartPluggings(aps, cart)[0]);
    }
  }

  /** Classification fails exactly when two active pluggings share the cart. */
  lemma ConflictingCartStatus(aps: seq<ActivePlugging>, cart: int)
    ensures GetCartStatus(aps, cart).Err? <==> Conflicting(aps, cart)
  {
    if Conflicting(aps, cart) { ConflictingHasTwo(aps, cart); }
    if |CartPluggings(aps, cart)| > 1 { TwoIsConflicting(aps, cart); }
  }

  /**
    A cart with exactly one active plugging is classified by its plate, which is the plate
    `GetCartPlate` finds: code 1 for a non-MaNGA plate, 2 for a complete one, 3 for completion 0,
    else 4 with the plate's completion.
   */
  lemma OccupiedCartStatus(aps: seq<ActivePlugging>, cart: int)
    requires GetCartPlate(aps, cart).Some? && !Conflicting(aps, cart)
    ensures var p := GetCartPlate(aps, cart).value;
            var st := GetCartStatus(aps, cart);
            && st.Ok? && st.value.plate == Some(p)
            && (st.value.code == 1 <==> !p.isMaNGA)
            && (st.value.code == 2 <==> p.isMaNGA && p.isComplete)
            && (st.value.code == 3 <==> p.isMaNGA && !p.isComplete && p.completion == 0.0)
            && (st.value.code == 4 <==> p.isMaNGA && !p.isComplete && p.completion != 0.0)
            && st.value.completion == (if st.value.code == 2 then 1.0
                                       else if st.value.code == 4 then p.completion else 0.0)
  {
    if |CartPluggings(aps, cart)| > 1 { TwoIsConflicting(aps, cart); }
    var i :| 0 <= i < |aps| && aps[i].cart == cart && aps[i].plate == GetCartPlate(aps, cart).value;
    CartPluggingsMember(aps, cart, aps[i]);
    CartPluggingsHead(aps, cart);
  }

  /** Position `i` holds the first plugging with the largest scan MJD. */
  predicate FirstLatest(ps: seq<Plugging>, i: int) {
    && 0 <= i < |ps|
    && (forall j :: 0 <= j < |ps| ==> ps[j].fscanMjd <= ps[i].fscanMjd)
    && (forall j :: 0 <= j < i ==> ps[j].fscanMjd < ps[i].fscanMjd)
  }

  /** `np.argmax` of the scan MJDs. */
  function LatestPlugging(ps: seq<Plugging>): (i: nat)
    requires |ps| > 0
    ensures FirstLatest(ps, i)
  {
    if |ps| == 1 then 0
    else
      var k := LatestPlugging(ps[..|ps| - 1]);
      if ps[|ps| - 1].fscanMjd > ps[k].fscanMjd then |ps| - 1 else k
  }

  /** The cart of the plate's most recent plugging, `None` when it has no pluggings. */
  function GetCartForReplug(plate: Plate): (r: Option<int>)
    ensures r.None? <==> plate.pluggings == []
    ensures r.Some? ==> exists i :: FirstLatest(plate.pluggings, i) && plate.pluggings[i].cart == r.value
  {
    if |plate.pluggings| == 0 then None
    else Some(plate.pluggings[LatestPlugging(plate.pluggings)].cart)
  }
}
