/**
  `Plugger.allocateCarts` as a specification. The cart dictionary is an ordered dictionary; the
  phases (place plugged plates, send replugs back to their last cart, greedy fill, leftover
  carts) are folds that thread a `Run` through the candidate plates and fail where the original
  raises.
 */
module Allocation {
  import opened Wrappers
  import opened Entities
  import Classifier
  import Prioritise

  /** No key listed twice. */
  predicate Distinct(xs: seq<int>) {
    forall i, j :: 0 <= i < j < |xs| ==> xs[i] != xs[j]
  }

  /**
    `self.carts`, an `OrderedDict` from cart number to plate (or `None`): `keys` is its key order,
    `slots` its contents. The `'cart_order'` entry is kept apart, by the plugger itself.
   */
  datatype Carts = Carts(keys: seq<int>, slots: map<int, Option<Plate>>)

  /** The keys listed once each, and exactly the keys of the dictionary. */
  ghost predicate Valid(d: Carts) {
    Distinct(d.keys) && forall c :: c in d.slots <==> c in d.keys
  }

  /** `self.carts[cart] = value`: a new key goes to the end, an existing key keeps its place. */
  function Set(d: Carts, cart: int, value: Option<Plate>): (e: Carts)
    ensures Valid(d) ==> Valid(e)
    ensures e.slots.Keys == d.slots.Keys + {cart} && e.slots[cart] == value
    ensures forall c :: c in d.slots && c != cart ==> e.slots[c] == d.slots[c]
    ensures cart in d.slots ==> e.keys == d.keys
    ensures cart !in d.slots ==> e.keys == d.keys + [cart]
  {
    Carts(if cart in d.slots then d.keys else d.keys + [cart], d.slots[cart := value])
  }

  // ---------------------------------------------------------------------------------------
  // The status list: `cartStatus`, later `sortedCarts`.

  /** Some status in `s` is for cart `c`: `c in cartStatus`. */
  predicate Occupies(s: seq<CartStatus>, c: int) {
    exists st :: st in s && st.cart == c
  }

  /** No two statuses for the same cart, as in a dictionary keyed by cart. */
  predicate DistinctCarts(s: seq<CartStatus>) {
    forall i, j :: 0 <= i < j < |s| ==> s[i].cart != s[j].cart
  }

  /** `cartStatus[c]`: the first status for cart `c`, or `None` (a `KeyError`). */
  function FindCart(s: seq<CartStatus>, c: int): (r: Option<CartStatus>)
    ensures r.Some? <==> Occupies(s, c)
    ensures r.Some? ==> r.value in s && r.value.cart == c
  {
    if s == [] then None
    else if s[0].cart == c then Some(s[0])
    else
      assert forall st :: st in s && st != s[0] ==> st in s[1..];
      FindCart(s[1..], c)
  }

  /**
    `cartStatus.pop(c)`: the list without the first status for cart `c`; every status for another
    cart stays, and without a status for `c` nothing changes.
   */
  function WithoutCart(s: seq<CartStatus>, c: int): (r: seq<CartStatus>)
    ensures multiset(r) <= multiset(s)
    ensures forall st :: st in s && st.cart != c ==> st in r
    ensures !Occupies(s, c) ==> r == s
  {
    if s == [] then []
    else
      assert s == [s[0]] + s[1..];
      assert forall st :: st in s <==> st == s[0] || st in s[1..];
      if s[0].cart == c then s[1..] else [s[0]] + WithoutCart(s[1..], c)
  }

  /** Popping the cart at the head removes just the head. */
  lemma WithoutHead(s: seq<CartStatus>)
    requires s != []
    ensures WithoutCart(s, s[0].cart) == s[1..]
  { }

  /** Popping a cart other than the head's keeps the head and pops from the tail. */
  lemma WithoutTail(s: seq<CartStatus>, c: int)
    requires s != [] && s[0].cart != c && Occupies(s, c)
    ensures WithoutCart(s, c) == [s[0]] + WithoutCart(s[1..], c) && Occupies(s[1..], c)
  {
    var st :| st in s && st.cart == c;
    assert st in s[1..];
  }

  /** Removing index `k` from the tail of `s` is removing index `k + 1` from `s`, past its head. */
  lemma SpliceTail<T>(s: seq<T>, k: nat, t: seq<T>)
    requires k + 1 < |s| && t == s[1..][..k] + s[1..][k + 1..]
    ensures [s[0]] + t == s[..k + 1] + s[k + 2..]
    ensures forall j :: 0 < j <= k ==> s[j] == s[1..][j - 1]
  {
    assert [s[0]] + s[1..][..k] == s[..k + 1];
    assert s[1..][k + 1..] == s[k + 2..];
  }

  /** The pop removes exactly the first status for `c`, at index `i`, and keeps the rest in order. */
  lemma {:induction false} WithoutCartFirst(s: seq<CartStatus>, c: int) returns (i: nat)
    requires Occupies(s, c)
    ensures i < |s| && s[i].cart == c && forall j :: 0 <= j < i ==> s[j].cart != c
    ensures WithoutCart(s, c) == s[..i] + s[i + 1..]
  {
    if s[0].cart == c {
      i := 0;
    } else {
      WithoutTail(s, c);
      var k := WithoutCartFirst(s[1..], c);
      i := k + 1;
      SpliceTail(s, k, WithoutCart(s[1..], c));
    }
  }

  /** With no two statuses for one cart, popping cart `c` leaves no status for `c`. */
  lemma {:induction false} WithoutCartLeaves(s: seq<CartStatus>, c: int)
    requires DistinctCarts(s)
    ensures !Occupies(WithoutCart(s, c), c)
  {
    if s != [] {
      assert DistinctCarts(s[1..]) by {
        forall i, j | 0 <= i < j < |s[1..]| ensures s[1..][i].cart != s[1..][j].cart {
          assert s[1..][i] == s[i + 1] && s[1..][j] == s[j + 1];
        }
      }
      if s[0].cart == c {
        forall st | st in s[1..] ensures st.cart != c {
          var k :| 0 <= k < |s[1..]| && s[1..][k] == st;
          assert s[k + 1] == st;
        }
      } else {
        WithoutCartLeaves(s[1..], c);
      }
    }
  }

  /** A status listed at two positions is counted twice. */
  lemma TwiceCounted(t: seq<CartStatus>, i: int, j: int)
    requires 0 <= i < j < |t| && t[i] == t[j]
    ensures multiset(t)[t[i]] >= 2
  {
    assert t == t[..j] + [t[j]] + t[j + 1..];
    assert t[..j][i] == t[i];
    assert multiset(t[..j])[t[i]] >= 1;
  }

  /** With no two statuses for one cart, no status is listed twice. */
  lemma {:induction false} CountedOnce(s: seq<CartStatus>, x: CartStatus)
    requires DistinctCarts(s)
    ensures multiset(s)[x] <= 1
  {
    if s != [] {
      assert s == [s[0]] + s[1..];
      assert DistinctCarts(s[1..]) by {
        forall i, j | 0 <= i < j < |s[1..]| ensures s[1..][i].cart != s[1..][j].cart {
          assert s[1..][i] == s[i + 1] && s[1..][j] == s[j + 1];
        }
      }
      CountedOnce(s[1..], x);
      if s[0] == x {
        forall k | 0 <= k < |s[1..]| ensures s[1..][k] != x {
          assert s[1..][k] == s[k + 1];
        }
        assert x !in s[1..];
      }
    }
  }

  /** Taking statuses out of a list keyed by cart keeps it keyed by cart. */
  lemma SubListDistinct(s: seq<CartStatus>, t: seq<CartStatus>)
    requires DistinctCarts(s) && multiset(t) <= multiset(s)
    ensures DistinctCarts(t)
  {
    forall i, j | 0 <= i < j < |t| ensures t[i].cart != t[j].cart {
      if t[i] == t[j] {
        TwiceCounted(t, i, j);
        CountedOnce(s, t[i]);
        assert false;
      } else {
        assert t[i] in multiset(s) && t[j] in multiset(s);
        var a :| 0 <= a < |s| && s[a] == t[i];
        var b :| 0 <= b < |s| && s[b] == t[j];
        if a < b {
          assert s[a].cart != s[b].cart;
        } else {
          assert s[b].cart != s[a].cart;
        }
      }
    }
  }

  /**
    The statuses of the free carts among `keys`, in key order (the `cartStatus` comprehension):
    the first cart with two active pluggings makes it fail.
   */
  function Statuses(keys: seq<int>, d: Carts, aps: seq<ActivePlugging>): Result<seq<CartStatus>, PluggerError> {
    if keys == [] then Ok([])
    else if keys[0] in d.slots && d.slots[keys[0]].None? then
      match Classifier.GetCartStatus(aps, keys[0])
      case Err(e) => Err(e)
      case Ok(st) =>
        match Statuses(keys[1..], d, aps)
        case Err(e) => Err(e)
        case Ok(sts) => Ok([st] + sts)
    else Statuses(keys[1..], d, aps)
  }

  /** Every status is for a free cart among `keys`, and is what `getCartStatus` gives that cart. */
  lemma {:induction false} StatusesFree(keys: seq<int>, d: Carts, aps: seq<ActivePlugging>, st: CartStatus)
    requires Statuses(keys, d, aps).Ok? && st in Statuses(keys, d, aps).value
    ensures st.cart in keys && st.cart in d.slots && d.slots[st.cart] == None
    ensures Classifier.GetCartStatus(aps, st.cart) == Ok(st)
  {
    if keys != [] {
      if keys[0] in d.slots && d.slots[keys[0]].None? {
        var r := Statuses(keys[1..], d, aps);
        if st != Classifier.GetCartStatus(aps, keys[0]).value {
          StatusesFree(keys[1..], d, aps, st);
        }
      } else {
        StatusesFree(keys[1..], d, aps, st);
      }
    }
  }

  /** Every free cart among `keys` gets its status from `getCartStatus`. */
  lemma {:induction false} StatusesCover(keys: seq<int>, d: Carts, aps: seq<ActivePlugging>, c: int)
    requires Statuses(keys, d, aps).Ok? && c in keys && c in d.slots && d.slots[c] == None
    ensures Classifier.GetCartStatus(aps, c).Ok?
    ensures Classifier.GetCartStatus(aps, c).value in Statuses(keys, d, aps).value
  {
    if keys[0] != c {
      StatusesCover(keys[1..], d, aps, c);
    }
  }

  /** Over keys listed once each, there is one status per cart. */
  lemma {:induction false} StatusesDistinct(keys: seq<int>, d: Carts, aps: seq<ActivePlugging>)
    requires Distinct(keys) && Statuses(keys, d, aps).Ok?
    ensures DistinctCarts(Statuses(keys, d, aps).value)
  {
    if keys != [] {
      assert Distinct(keys[1..]) by {
        forall i, j | 0 <= i < j < |keys[1..]| ensures keys[1..][i] != keys[1..][j] {
          assert keys[1..][i] == keys[i + 1] && keys[1..][j] == keys[j + 1];
        }
      }
      StatusesDistinct(keys[1..], d, aps);
      if keys[0] in d.slots && d.slots[keys[0]].None? {
        var sts := Statuses(keys[1..], d, aps).value;
        var st := Classifier.GetCartStatus(aps, keys[0]).value;
        forall k | 0 <= k < |sts| ensures sts[k].cart != st.cart {
          StatusesFree(keys[1..], d, aps, sts[k]);
          var m :| 0 <= m < |keys[1..]| && keys[1..][m] == sts[k].cart;
          assert keys[m + 1] == sts[k].cart;
        }
        assert Statuses(keys, d, aps).value == [st] + sts;
        forall i, j | 0 <= i < j < |[st] + sts| ensures ([st] + sts)[i].cart != ([st] + sts)[j].cart {
          if i > 0 {
            assert ([st] + sts)[i] == sts[i - 1];
          }
          assert ([st] + sts)[j] == sts[j - 1];
        }
      }
    }
  }

  /** Building the statuses fails exactly when a free cart has two active pluggings. */
  lemma {:induction false} StatusesFail(keys: seq<int>, d: Carts, aps: seq<ActivePlugging>)
    ensures Statuses(keys, d, aps).Err?
            <==> exists c :: c in keys && c in d.slots && d.slots[c].None? && Classifier.Conflicting(aps, c)
  {
    if keys != [] {
      StatusesFail(keys[1..], d, aps);
      Classifier.ConflictingCartStatus(aps, keys[0]);
      assert forall c :: c in keys <==> c == keys[0] || c in keys[1..];
    }
  }

  // ---------------------------------------------------------------------------------------
  // The run: cart dictionary, pending statuses, allocated plates and messages.

  /**
    The state the allocation threads through its phases: the cart dictionary, the statuses of
    the carts still free (`cartStatus`, then `sortedCarts`), `allocatedPlates` and
    `cartPlateMessage`.
   */
  datatype Run = Run(carts: Carts, pending: seq<CartStatus>, allocatedPlates: seq<Plate>, messages: map<int, CartMessage>)

  /** Every pending status is for a cart of the dictionary whose value is still `None`. */
  ghost predicate Free(r: Run) {
    forall st :: st in r.pending ==> st.cart in r.carts.slots && r.carts.slots[st.cart] == None
  }

  /** Plate `p` sits in cart `c`, which is no longer pending, with message `(p, d)`. */
  ghost predicate PlacedAt(r: Run, c: int, p: Plate, d: Disposition) {
    c in r.carts.slots && r.carts.slots[c] == Some(p) && !Occupies(r.pending, c)
    && c in r.messages && r.messages[c] == CartMessage(Some(p), d)
  }

  ghost predicate Placed(r: Run, p: Plate) {
    exists c, d :: PlacedAt(r, c, p, d)
  }

  /**
    What holds between the steps of the allocation: a well-formed dictionary, one pending status
    per cart, pending carts still free, and every allocated plate sitting in some cart.
   */
  ghost predicate Inv(r: Run) {
    Valid(r.carts) && DistinctCarts(r.pending) && Free(r)
    && forall p :: p in r.allocatedPlates ==> Placed(r, p)
  }

  /**
    The assignment all three phases make: `self.carts[c] = p`, a message for `c`,
    `allocatedPlates.append(p)` and `c` popped from the pending statuses.
   */
  function Assign(r: Run, c: int, p: Plate, d: Disposition): Run {
    Run(Set(r.carts, c, Some(p)), WithoutCart(r.pending, c), r.allocatedPlates + [p],
        r.messages[c := CartMessage(Some(p), d)])
  }

  /** An assignment to a pending cart keeps plates already placed elsewhere where they are. */
  lemma AssignOthers(r: Run, c: int, p: Plate, d: Disposition, c': int, q: Plate, d': Disposition)
    requires Occupies(r.pending, c) && PlacedAt(r, c', q, d')
    ensures PlacedAt(Assign(r, c, p, d), c', q, d')
  {
    var w := WithoutCart(r.pending, c);
    forall st | st in w ensures st.cart != c' {
      assert st in multiset(r.pending);
    }
  }

  /**
    An assignment to a pending cart keeps the invariant, places `p` in `c`, leaves the keys of
    the dictionary as they were and shortens the pending list by one.
   */
  lemma AssignKeeps(r: Run, c: int, p: Plate, d: Disposition)
    requires Inv(r) && Occupies(r.pending, c)
    ensures var t := Assign(r, c, p, d);
            Inv(t) && PlacedAt(t, c, p, d) && t.carts.keys == r.carts.keys
            && t.carts.slots.Keys == r.carts.slots.Keys
  {
    var t := Assign(r, c, p, d);
    var w := WithoutCart(r.pending, c);
    WithoutCartLeaves(r.pending, c);
    SubListDistinct(r.pending, w);
    assert c in r.carts.slots;
    forall st | st in w ensures st.cart in t.carts.slots && t.carts.slots[st.cart] == None {
      assert st in multiset(r.pending);
      assert st.cart != c;
    }
    forall q | q in t.allocatedPlates ensures Placed(t, q) {
      if q == p {
        assert PlacedAt(t, c, p, d);
      } else {
        assert q in r.allocatedPlates;
        var c', d' :| PlacedAt(r, c', q, d');
        AssignOthers(r, c, p, d, c', q, d');
      }
    }
  }

  // ---------------------------------------------------------------------------------------
  // Phase 1: plates already plugged stay in their active cart.

  function PlaceStep(r: Run, p: Plate): Result<Run, PluggerError> {
    if !p.isPlugged then Ok(r)
    else if FindCart(r.pending, p.activeCart).None? then Err(PluggedCartUnavailable(p.activeCart))
    else Ok(Assign(r, p.activeCart, p, AlreadyPlugged))
  }

  function Place(r: Run, ps: seq<Plate>): Result<Run, PluggerError>
    decreases |ps|
  {
    if ps == [] then Ok(r)
    else
      match PlaceStep(r, ps[0])
      case Err(e) => Err(e)
      case Ok(t) => Place(t, ps[1..])
  }

  // ---------------------------------------------------------------------------------------
  // Phase 2: replugs go back to the cart of their last plugging.

  function ReplugStep(r: Run, p: Plate, offline: seq<int>): Result<Run, PluggerError> {
    if p in r.allocatedPlates || !p.isReplug then Ok(r)
    else
      var last := Classifier.GetCartForReplug(p);
      if last.None? then Err(ReplugCartUnavailable(None))
      else
        match FindCart(r.pending, last.value)
        case None => Err(ReplugCartUnavailable(last))
        case Some(st) =>
          if last.value in offline then Ok(r)
          else Ok(Assign(r, last.value, p, Replacing(st.code)))
  }

  function Replug(r: Run, ps: seq<Plate>, offline: seq<int>): Result<Run, PluggerError>
    decreases |ps|
  {
    if ps == [] then Ok(r)
    else
      match ReplugStep(r, ps[0], offline)
      case Err(e) => Err(e)
      case Ok(t) => Replug(t, ps[1..], offline)
  }

  // ---------------------------------------------------------------------------------------
  // Phase 3: every plate still without a cart takes the head of the prioritised list.

  function FillStep(r: Run, p: Plate): Result<Run, PluggerError> {
    if p in r.allocatedPlates then Ok(r)
    else if r.pending == [] then Err(NoCartLeft)
    else Ok(Assign(r, r.pending[0].cart, p, Replacing(r.pending[0].code)))
  }

  function Fill(r: Run, ps: seq<Plate>): Result<Run, PluggerError>
    decreases |ps|
  {
    if ps == [] then Ok(r)
    else
      match FillStep(r, ps[0])
      case Err(e) => Err(e)
      case Ok(t) => Fill(t, ps[1..])
  }

  // ---------------------------------------------------------------------------------------
  // The leftover carts.

  /** A leftover cart keeps its plate: not complete, and a MaNGA plate in it. */
  predicate Keeps(st: CartStatus) {
    !(st.completion >= 1.0) && st.statusLabel != NoMaNGAPlate && st.plate.Some?
  }

  /** The `cartPlateMessage` entry of a leftover cart. */
  function Disposal(st: CartStatus): CartMessage {
    if st.completion >= 1.0 then CartMessage(st.plate, Unplug)
    else if Keeps(st) then CartMessage(st.plate, if st.plate.value.isPlugged then AlreadyPlugged else Unchanged)
    else CartMessage(st.plate, NotDoingAnything)
  }

  function DisposeStep(r: Run, st: CartStatus): Run {
    r.(carts := if Keeps(st) then Set(r.carts, st.cart, st.plate) else r.carts,
       messages := r.messages[st.cart := Disposal(st)])
  }

  function Dispose(r: Run, sts: seq<CartStatus>): (t: Run)
    ensures t.pending == r.pending && t.allocatedPlates == r.allocatedPlates
    decreases |sts|
  {
    if sts == [] then r else Dispose(DisposeStep(r, sts[0]), sts[1..])
  }

  // ---------------------------------------------------------------------------------------
  // What each phase keeps.

  /** The dictionary has the same keys, in the same order. */
  ghost predicate SameKeys(r: Run, t: Run) {
    t.carts.keys == r.carts.keys && t.carts.slots.Keys == r.carts.slots.Keys
  }

  /** Phase 1 keeps the invariant and the keys, and moves no plate already placed. */
  lemma {:induction false} PlaceKeeps(r: Run, ps: seq<Plate>)
    requires Inv(r) && Place(r, ps).Ok?
    ensures var t := Place(r, ps).value;
            Inv(t) && SameKeys(r, t) && forall c, q, d :: PlacedAt(r, c, q, d) ==> PlacedAt(t, c, q, d)
    decreases |ps|
  {
    if ps != [] {
      var t := PlaceStep(r, ps[0]).value;
      if ps[0].isPlugged {
        AssignKeeps(r, ps[0].activeCart, ps[0], AlreadyPlugged);
        forall c, q, d | PlacedAt(r, c, q, d) ensures PlacedAt(t, c, q, d) {
          AssignOthers(r, ps[0].activeCart, ps[0], AlreadyPlugged, c, q, d);
        }
      }
      PlaceKeeps(t, ps[1..]);
    }
  }

  /** Every plugged candidate ends phase 1 in its active cart, marked already plugged. */
  lemma {:induction false} PlacePlugged(r: Run, ps: seq<Plate>, i: int)
    requires Inv(r) && Place(r, ps).Ok? && 0 <= i < |ps| && ps[i].isPlugged
    ensures PlacedAt(Place(r, ps).value, ps[i].activeCart, ps[i], AlreadyPlugged)
    decreases |ps|
  {
    var t := PlaceStep(r, ps[0]).value;
    if ps[0].isPlugged {
      AssignKeeps(r, ps[0].activeCart, ps[0], AlreadyPlugged);
    }
    if i == 0 {
      PlaceKeeps(t, ps[1..]);
    } else {
      PlacePlugged(t, ps[1..], i - 1);
    }
  }

  /** A plugged candidate whose cart is no longer pending makes phase 1 fail. */
  lemma {:induction false} PlaceFailsOnTakenCart(r: Run, ps: seq<Plate>, j: int)
    requires 0 <= j < |ps| && ps[j].isPlugged && !Occupies(r.pending, ps[j].activeCart)
    ensures Place(r, ps).Err?
    decreases |ps|
  {
    if j > 0 && PlaceStep(r, ps[0]).Ok? {
      var t := PlaceStep(r, ps[0]).value;
      forall st | st in t.pending ensures st.cart != ps[j].activeCart {
        assert st in multiset(r.pending);
      }
      PlaceFailsOnTakenCart(t, ps[1..], j - 1);
    }
  }

  /** Two plugged candidates that report the same active cart make phase 1 fail. */
  lemma {:induction false} PlaceSameCartFails(r: Run, ps: seq<Plate>, i: int, j: int)
    requires Inv(r) && 0 <= i < j < |ps| && ps[i].isPlugged && ps[j].isPlugged
    requires ps[i].activeCart == ps[j].activeCart
    ensures Place(r, ps).Err?
    decreases |ps|
  {
    if PlaceStep(r, ps[0]).Ok? {
      var t := PlaceStep(r, ps[0]).value;
      if ps[0].isPlugged {
        AssignKeeps(r, ps[0].activeCart, ps[0], AlreadyPlugged);
      }
      if i == 0 {
        WithoutCartLeaves(r.pending, ps[0].activeCart);
        PlaceFailsOnTakenCart(t, ps[1..], j - 1);
      } else {
        PlaceSameCartFails(t, ps[1..], i - 1, j - 1);
      }
    }
  }

  /**
    One replug candidate, not yet allocated: with no past plugging, or with a last cart that is not
    pending, it fails (the lookup comes before the check); with an offline last cart nothing
    changes and the plate is left to the greedy fill; otherwise it goes to its last cart, which
    stops being pending.
   */
  lemma ReplugOutcome(r: Run, p: Plate, offline: seq<int>)
    requires Inv(r) && p !in r.allocatedPlates && p.isReplug
    ensures Classifier.GetCartForReplug(p).None? ==> ReplugStep(r, p, offline) == Err(ReplugCartUnavailable(None))
    ensures var last := Classifier.GetCartForReplug(p);
            last.Some? && !Occupies(r.pending, last.value) ==> ReplugStep(r, p, offline) == Err(ReplugCartUnavailable(last))
    ensures var last := Classifier.GetCartForReplug(p);
            last.Some? && Occupies(r.pending, last.value) && last.value in offline ==> ReplugStep(r, p, offline) == Ok(r)
    ensures var last := Classifier.GetCartForReplug(p);
            last.Some? && Occupies(r.pending, last.value) && last.value !in offline ==>
              ReplugStep(r, p, offline).Ok?
              && Inv(ReplugStep(r, p, offline).value)
              && PlacedAt(ReplugStep(r, p, offline).value, last.value, p,
                          Replacing(FindCart(r.pending, last.value).value.code))
  {
    var last := Classifier.GetCartForReplug(p);
    if last.Some? && Occupies(r.pending, last.value) && last.value !in offline {
      AssignKeeps(r, last.value, p, Replacing(FindCart(r.pending, last.value).value.code));
    }
  }

  /** Phase 2 keeps the invariant and the keys, and moves no plate already placed. */
  lemma {:induction false} ReplugKeeps(r: Run, ps: seq<Plate>, offline: seq<int>)
    requires Inv(r) && Replug(r, ps, offline).Ok?
    ensures var t := Replug(r, ps, offline).value;
            Inv(t) && SameKeys(r, t) && forall c, q, d :: PlacedAt(r, c, q, d) ==> PlacedAt(t, c, q, d)
    decreases |ps|
  {
    if ps != [] {
      var t := ReplugStep(r, ps[0], offline).value;
      if t != r {
        var c := Classifier.GetCartForReplug(ps[0]).value;
        var d := Replacing(FindCart(r.pending, c).value.code);
        AssignKeeps(r, c, ps[0], d);
        forall c', q, d' | PlacedAt(r, c', q, d') ensures PlacedAt(t, c', q, d') {
          AssignOthers(r, c, ps[0], d, c', q, d');
        }
      }
      ReplugKeeps(t, ps[1..], offline);
    }
  }

  /** Dropping pending statuses moves no placed plate. */
  lemma ShrinkPlaced(r: Run, s: seq<CartStatus>, c: int, q: Plate, d: Disposition)
    requires multiset(s) <= multiset(r.pending) && PlacedAt(r, c, q, d)
    ensures PlacedAt(r.(pending := s), c, q, d)
  {
    forall st | st in s ensures st.cart != c {
      assert st in multiset(r.pending);
    }
  }

  /** Dropping pending statuses, in any order, keeps the invariant. */
  lemma Shrink(r: Run, s: seq<CartStatus>)
    requires Inv(r) && multiset(s) <= multiset(r.pending)
    ensures Inv(r.(pending := s))
  {
    var t := r.(pending := s);
    SubListDistinct(r.pending, s);
    forall st | st in s ensures st in r.pending {
      assert st in multiset(r.pending);
    }
    forall q | q in t.allocatedPlates ensures Placed(t, q) {
      var c, d :| PlacedAt(r, c, q, d);
      ShrinkPlaced(r, s, c, q, d);
    }
  }

  /** Sorting the pending carts keeps the invariant and moves no placed plate. */
  lemma Reprioritise(r: Run)
    requires Inv(r)
    ensures var t := r.(pending := Prioritise.Prioritised(r.pending));
            Inv(t) && SameKeys(r, t) && forall c, q, d :: PlacedAt(r, c, q, d) ==> PlacedAt(t, c, q, d)
  {
    var s := Prioritise.Prioritised(r.pending);
    Prioritise.PrioritisedFromInput(r.pending);
    Shrink(r, s);
    forall c, q, d | PlacedAt(r, c, q, d) ensures PlacedAt(r.(pending := s), c, q, d) {
      ShrinkPlaced(r, s, c, q, d);
    }
  }

  /** The plates phase 3 gives a cart to, in order: those not allocated when their turn comes. */
  function Needs(ps: seq<Plate>, taken: seq<Plate>): seq<Plate> {
    if ps == [] then []
    else if ps[0] in taken then Needs(ps[1..], taken)
    else [ps[0]] + Needs(ps[1..], taken + [ps[0]])
  }

  /** Phase 3 keeps the invariant and the keys, and moves no plate already placed. */
  lemma {:induction false} FillKeeps(r: Run, ps: seq<Plate>)
    requires Inv(r) && Fill(r, ps).Ok?
    ensures var t := Fill(r, ps).value;
            Inv(t) && SameKeys(r, t) && forall c, q, d :: PlacedAt(r, c, q, d) ==> PlacedAt(t, c, q, d)
    decreases |ps|
  {
    if ps != [] {
      var t := FillStep(r, ps[0]).value;
      if ps[0] !in r.allocatedPlates {
        var c := r.pending[0].cart;
        var d := Replacing(r.pending[0].code);
        assert r.pending[0] in r.pending;
        AssignKeeps(r, c, ps[0], d);
        forall c', q, d' | PlacedAt(r, c', q, d') ensures PlacedAt(t, c', q, d') {
          AssignOthers(r, c, ps[0], d, c', q, d');
        }
      }
      FillKeeps(t, ps[1..]);
    }
  }

  /** Phase 3 succeeds exactly when there are no more plates needing a cart than pending carts. */
  lemma {:induction false} FillSucceeds(r: Run, ps: seq<Plate>)
    ensures Fill(r, ps).Ok? <==> |Needs(ps, r.allocatedPlates)| <= |r.pending|
    decreases |ps|
  {
    if ps != [] {
      if ps[0] in r.allocatedPlates {
        FillSucceeds(r, ps[1..]);
      } else if r.pending != [] {
        var t := FillStep(r, ps[0]).value;
        WithoutHead(r.pending);
        FillSucceeds(t, ps[1..]);
      }
    }
  }

  lemma ConsSlices<T, U>(a: seq<T>, k: nat, x: seq<U>, h: U, y: seq<U>)
    requires 0 < |a| && k <= |a| - 1
    ensures a[1..][k..] == a[k + 1..] && x + [h] + y == x + ([h] + y)
  { }

  /**
    A successful phase 3 takes one pending cart per plate needing one, from the head of the
    prioritised list, and appends exactly those plates to `allocatedPlates`.
   */
  lemma {:induction false} FillTakesHeads(r: Run, ps: seq<Plate>)
    requires Fill(r, ps).Ok?
    ensures |Needs(ps, r.allocatedPlates)| <= |r.pending|
    ensures Fill(r, ps).value.pending == r.pending[|Needs(ps, r.allocatedPlates)|..]
    ensures Fill(r, ps).value.allocatedPlates == r.allocatedPlates + Needs(ps, r.allocatedPlates)
    decreases |ps|
  {
    if ps != [] {
      if ps[0] in r.allocatedPlates {
        FillTakesHeads(r, ps[1..]);
      } else {
        var t := FillStep(r, ps[0]).value;
        WithoutHead(r.pending);
        FillTakesHeads(t, ps[1..]);
        ConsSlices(r.pending, |Needs(ps[1..], t.allocatedPlates)|, r.allocatedPlates, ps[0],
                   Needs(ps[1..], t.allocatedPlates));
      }
    }
  }

  /** The `j`-th plate that needs a cart in phase 3 ends in the `j`-th pending cart. */
  lemma {:induction false} FillPlaces(r: Run, ps: seq<Plate>, j: int)
    requires Inv(r) && Fill(r, ps).Ok? && 0 <= j < |Needs(ps, r.allocatedPlates)|
    ensures j < |r.pending|
    ensures PlacedAt(Fill(r, ps).value, r.pending[j].cart, Needs(ps, r.allocatedPlates)[j],
                     Replacing(r.pending[j].code))
    decreases |ps|
  {
    FillTakesHeads(r, ps);
    if ps[0] in r.allocatedPlates {
      FillPlaces(r, ps[1..], j);
    } else {
      var t := FillStep(r, ps[0]).value;
      assert r.pending[0] in r.pending;
      AssignKeeps(r, r.pending[0].cart, ps[0], Replacing(r.pending[0].code));
      if j == 0 {
        FillKeeps(t, ps[1..]);
      } else {
        WithoutHead(r.pending);
        FillPlaces(t, ps[1..], j - 1);
      }
    }
  }

  /** Every candidate is allocated at the end of phase 3: `Needs` takes the rest. */
  lemma {:induction false} NeedsCovers(ps: seq<Plate>, taken: seq<Plate>, i: int)
    requires 0 <= i < |ps|
    ensures ps[i] in taken + Needs(ps, taken)
    decreases |ps|
  {
    if i > 0 {
      if ps[0] in taken {
        NeedsCovers(ps[1..], taken, i - 1);
      } else {
        NeedsCovers(ps[1..], taken + [ps[0]], i - 1);
        assert taken + [ps[0]] + Needs(ps[1..], taken + [ps[0]])
            == taken + Needs(ps, taken);
      }
    }
  }

  /** The leftover step leaves a cart that is not among the statuses alone. */
  lemma {:induction false} DisposeOther(r: Run, sts: seq<CartStatus>, c: int)
    requires !Occupies(sts, c)
    ensures var t := Dispose(r, sts);
            (c in t.carts.slots <==> c in r.carts.slots)
            && (c in r.carts.slots ==> t.carts.slots[c] == r.carts.slots[c])
            && (c in t.messages <==> c in r.messages)
            && (c in r.messages ==> t.messages[c] == r.messages[c])
    decreases |sts|
  {
    if sts != [] {
      assert sts[0] in sts;
      assert !Occupies(sts[1..], c) by {
        forall st | st in sts[1..] ensures st.cart != c {
          assert st in sts;
        }
      }
      DisposeOther(DisposeStep(r, sts[0]), sts[1..], c);
    }
  }

  /**
    With one status per cart, each leftover cart ends with the message of its own status, and
    holds its plate when it keeps it, or what it held before otherwise.
   */
  lemma {:induction false} DisposeAt(r: Run, sts: seq<CartStatus>, i: int)
    requires DistinctCarts(sts) && 0 <= i < |sts|
    ensures var t := Dispose(r, sts); var st := sts[i];
            st.cart in t.messages && t.messages[st.cart] == Disposal(st)
            && (Keeps(st) ==> st.cart in t.carts.slots && t.carts.slots[st.cart] == st.plate)
            && (!Keeps(st) && st.cart in r.carts.slots ==>
                  st.cart in t.carts.slots && t.carts.slots[st.cart] == r.carts.slots[st.cart])
    decreases |sts|
  {
    var r' := DisposeStep(r, sts[0]);
    assert DistinctCarts(sts[1..]) by {
      forall a, b | 0 <= a < b < |sts[1..]| ensures sts[1..][a].cart != sts[1..][b].cart {
        assert sts[1..][a] == sts[a + 1] && sts[1..][b] == sts[b + 1];
      }
    }
    if i == 0 {
      assert !Occupies(sts[1..], sts[0].cart) by {
        forall st | st in sts[1..] ensures st.cart != sts[0].cart {
          var k :| 0 <= k < |sts[1..]| && sts[1..][k] == st;
          assert sts[k + 1] == st;
        }
      }
      DisposeOther(r', sts[1..], sts[0].cart);
    } else {
      assert sts[1..][i - 1] == sts[i];
      DisposeAt(r', sts[1..], i - 1);
    }
  }

  /** The leftover step only writes carts already in the dictionary: the keys do not change. */
  lemma {:induction false} DisposeKeys(r: Run, sts: seq<CartStatus>)
    requires Valid(r.carts) && forall st :: st in sts ==> st.cart in r.carts.slots
    ensures Valid(Dispose(r, sts).carts) && SameKeys(r, Dispose(r, sts))
    decreases |sts|
  {
    if sts != [] {
      assert sts[0] in sts;
      DisposeKeys(DisposeStep(r, sts[0]), sts[1..]);
    }
  }

  // ---------------------------------------------------------------------------------------
  // Tracing a free cart through the phases.

  /**
    The cart of status `st` is accounted for in `r`: still pending with that very status, or
    holding a plate the allocation has placed there.
   */
  ghost predicate Traced(r: Run, st: CartStatus) {
    st in r.pending || exists p, d :: p in r.allocatedPlates && PlacedAt(r, st.cart, p, d)
  }

  /** An assignment to a pending cart keeps every cart accounted for. */
  lemma AssignTraced(r: Run, c: int, p: Plate, d: Disposition, st: CartStatus)
    requires Inv(r) && Occupies(r.pending, c) && Traced(r, st)
    ensures Traced(Assign(r, c, p, d), st)
  {
    var t := Assign(r, c, p, d);
    if st in r.pending {
      if st.cart == c {
        AssignKeeps(r, c, p, d);
        assert p in t.allocatedPlates && PlacedAt(t, st.cart, p, d);
      }
    } else {
      var q, d' :| q in r.allocatedPlates && PlacedAt(r, st.cart, q, d');
      AssignOthers(r, c, p, d, st.cart, q, d');
      assert q in t.allocatedPlates;
    }
  }

  /** Phase 1 keeps every cart accounted for. */
  lemma {:induction false} PlaceTraced(r: Run, ps: seq<Plate>, st: CartStatus)
    requires Inv(r) && Place(r, ps).Ok? && Traced(r, st)
    ensures Traced(Place(r, ps).value, st)
    decreases |ps|
  {
    if ps != [] {
      var t := PlaceStep(r, ps[0]).value;
      if ps[0].isPlugged {
        AssignKeeps(r, ps[0].activeCart, ps[0], AlreadyPlugged);
        AssignTraced(r, ps[0].activeCart, ps[0], AlreadyPlugged, st);
      }
      PlaceTraced(t, ps[1..], st);
    }
  }

  /** Phase 2 keeps every cart accounted for. */
  lemma {:induction false} ReplugTraced(r: Run, ps: seq<Plate>, offline: seq<int>, st: CartStatus)
    requires Inv(r) && Replug(r, ps, offline).Ok? && Traced(r, st)
    ensures Traced(Replug(r, ps, offline).value, st)
    decreases |ps|
  {
    if ps != [] {
      var t := ReplugStep(r, ps[0], offline).value;
      if t != r {
        var c := Classifier.GetCartForReplug(ps[0]).value;
        var d := Replacing(FindCart(r.pending, c).value.code);
        AssignKeeps(r, c, ps[0], d);
        AssignTraced(r, c, ps[0], d, st);
      }
      ReplugTraced(t, ps[1..], offline, st);
    }
  }

  /** Sorting the pending carts keeps accounted for every cart whose label is known. */
  lemma SortTraced(r: Run, st: CartStatus)
    requires Traced(r, st) && Prioritise.Known(st.statusLabel)
    ensures Traced(r.(pending := Prioritise.Prioritised(r.pending)), st)
  {
    var s := Prioritise.Prioritised(r.pending);
    Prioritise.PrioritisedMember(r.pending, st);
    if st !in r.pending {
      var q, d :| q in r.allocatedPlates && PlacedAt(r, st.cart, q, d);
      Prioritise.PrioritisedFromInput(r.pending);
      ShrinkPlaced(r, s, st.cart, q, d);
    }
  }

  /** Phase 3 keeps every cart accounted for. */
  lemma {:induction false} FillTraced(r: Run, ps: seq<Plate>, st: CartStatus)
    requires Inv(r) && Fill(r, ps).Ok? && Traced(r, st)
    ensures Traced(Fill(r, ps).value, st)
    decreases |ps|
  {
    if ps != [] {
      var t := FillStep(r, ps[0]).value;
      if ps[0] !in r.allocatedPlates {
        var c := r.pending[0].cart;
        var d := Replacing(r.pending[0].code);
        assert r.pending[0] in r.pending;
        AssignKeeps(r, c, ps[0], d);
        AssignTraced(r, c, ps[0], d, st);
      }
      FillTraced(t, ps[1..], st);
    }
  }

  // ---------------------------------------------------------------------------------------
  // The whole allocation.

  /** `len(self.carts)`: the cart keys, and the `'cart_order'` entry when it is present. */
  function Capacity(d: Carts, hasCartOrder: bool): nat {
    |d.keys| + if hasCartOrder then 1 else 0
  }

  /** The plates considered: all of them, or the first `n` when there are more than `n`. */
  function Candidates(plates: seq<Plate>, n: nat): (ps: seq<Plate>)
    ensures |ps| <= n && |ps| <= |plates| && ps == plates[..|ps|]
    ensures |plates| <= n ==> ps == plates
    ensures |plates| > n ==> |ps| == n
  {
    if |plates| > n then plates[..n] else plates
  }

  /** An active plugging's primary key is listed as an offline cart. */
  predicate Marked(aps: seq<ActivePlugging>, offline: seq<int>, c: int) {
    c in offline && exists ap :: ap in aps && ap.pk == c
  }

  /** `self.carts[pk] = None` for every active plugging whose primary key is an offline cart. */
  function MarkOffline(d: Carts, aps: seq<ActivePlugging>, offline: seq<int>): (e: Carts)
    ensures Valid(d) ==> Valid(e)
    decreases |aps|
  {
    if aps == [] then d
    else MarkOffline(if aps[0].pk in offline then Set(d, aps[0].pk, None) else d, aps[1..], offline)
  }

  /**
    The offline pass adds the marked keys, with value `None`, and leaves every other entry as it
    was: it is keyed by primary key, not by cart number.
   */
  lemma {:induction false} MarkOfflineAt(d: Carts, aps: seq<ActivePlugging>, offline: seq<int>, c: int)
    ensures var e := MarkOffline(d, aps, offline);
            (c in e.slots <==> c in d.slots || Marked(aps, offline, c))
            && (Marked(aps, offline, c) ==> e.slots[c] == None)
            && (!Marked(aps, offline, c) && c in d.slots ==> e.slots[c] == d.slots[c])
    decreases |aps|
  {
    if aps != [] {
      var d' := if aps[0].pk in offline then Set(d, aps[0].pk, None) else d;
      MarkOfflineAt(d', aps[1..], offline, c);
      assert forall ap :: ap in aps <==> ap == aps[0] || ap in aps[1..];
      if Marked(aps[1..], offline, c) {
        var ap :| ap in aps[1..] && ap.pk == c;
        assert ap in aps;
      }
    }
  }

  /** The run at the start of phase 1: the offline pass done and the free carts' statuses built. */
  function Start(d: Carts, aps: seq<ActivePlugging>, offline: seq<int>): Result<Run, PluggerError> {
    var e := MarkOffline(d, aps, offline);
    match Statuses(e.keys, e, aps)
    case Err(err) => Err(err)
    case Ok(sts) => Ok(Run(e, sts, [], map[]))
  }

  /** The three phases over the candidates, then the leftover carts. */
  function Phases(r: Run, ps: seq<Plate>, offline: seq<int>): Result<Run, PluggerError> {
    match Place(r, ps)
    case Err(e) => Err(e)
    case Ok(r1) =>
      match Replug(r1, ps, offline)
      case Err(e) => Err(e)
      case Ok(r2) =>
        match Fill(r2.(pending := Prioritise.Prioritised(r2.pending)), ps)
        case Err(e) => Err(e)
        case Ok(r3) => Ok(Dispose(r3, r3.pending))
  }

  /**
    The result of an allocation: the final run and the two warnings, whether the plate list was
    truncated and how many candidates were not allocated.
   */
  datatype Outcome = Outcome(run: Run, truncated: bool, unallocated: nat)

  /**
    The outcome once the phases ran over the candidates `ps` of `plates` (capacity `n`): the final
    run, whether the plate list was cut, and how many candidates are still without a cart.
   */
  function Conclude(plates: seq<Plate>, n: nat, t: Result<Run, PluggerError>): Result<Outcome, PluggerError> {
    match t
    case Err(e) => Err(e)
    case Ok(t) =>
      var ps := Candidates(plates, n);
      Ok(Outcome(t, |plates| > n, if |ps| > |t.allocatedPlates| then |ps| - |t.allocatedPlates| else 0))
  }

  /** `allocateCarts(plates)` on the cart dictionary `d`, without the release order. */
  function Allocate(d: Carts, hasCartOrder: bool, plates: seq<Plate>, aps: seq<ActivePlugging>, offline: seq<int>)
    : Result<Outcome, PluggerError>
  {
    var n := Capacity(d, hasCartOrder);
    match Start(d, aps, offline)
    case Err(e) => Err(e)
    case Ok(r0) => Conclude(plates, n, Phases(r0, Candidates(plates, n), offline))
  }

  /** The start keeps the invariant; it fails exactly when a free cart has two active pluggings. */
  lemma StartInv(d: Carts, aps: seq<ActivePlugging>, offline: seq<int>)
    requires Valid(d)
    ensures var e := MarkOffline(d, aps, offline);
            (Start(d, aps, offline).Err?
             <==> exists c :: c in e.keys && c in e.slots && e.slots[c].None? && Classifier.Conflicting(aps, c))
    ensures Start(d, aps, offline).Ok? ==>
              var r := Start(d, aps, offline).value;
              Inv(r) && r.carts == MarkOffline(d, aps, offline) && r.allocatedPlates == [] && r.messages == map[]
              && r.pending == Statuses(r.carts.keys, r.carts, aps).value
  {
    var e := MarkOffline(d, aps, offline);
    StatusesFail(e.keys, e, aps);
    if Start(d, aps, offline).Ok? {
      StatusesDistinct(e.keys, e, aps);
      forall st | st in Start(d, aps, offline).value.pending ensures st.cart in e.slots && e.slots[st.cart] == None {
        StatusesFree(e.keys, e, aps, st);
      }
    }
  }

  /** Phase 2, the sort, phase 3 and the leftover step move no plate placed before them. */
  lemma AfterPlaceKeep(r1: Run, ps: seq<Plate>, offline: seq<int>, c: int, q: Plate, d: Disposition)
    requires Inv(r1) && Replug(r1, ps, offline).Ok? && PlacedAt(r1, c, q, d)
    requires var r2 := Replug(r1, ps, offline).value;
             Fill(r2.(pending := Prioritise.Prioritised(r2.pending)), ps).Ok?
    ensures var r2 := Replug(r1, ps, offline).value;
            var r3 := Fill(r2.(pending := Prioritise.Prioritised(r2.pending)), ps).value;
            PlacedAt(Dispose(r3, r3.pending), c, q, d)
  {
    var r2 := Replug(r1, ps, offline).value;
    ReplugKeeps(r1, ps, offline);
    var r2' := r2.(pending := Prioritise.Prioritised(r2.pending));
    Reprioritise(r2);
    var r3 := Fill(r2', ps).value;
    FillKeeps(r2', ps);
    DisposeOther(r3, r3.pending, c);
  }

  /**
    At the end of phase 3 (from a run that keeps the invariant) every candidate is allocated and
    sits in a cart that is no longer pending.
   */
  lemma FillCovers(r: Run, ps: seq<Plate>, i: int)
    requires Inv(r) && Fill(r, ps).Ok? && 0 <= i < |ps|
    ensures ps[i] in Fill(r, ps).value.allocatedPlates && Placed(Fill(r, ps).value, ps[i])
  {
    FillTakesHeads(r, ps);
    FillKeeps(r, ps);
    NeedsCovers(ps, r.allocatedPlates, i);
  }

  /** Every plugged candidate ends in its active cart, marked already plugged. */
  lemma AllocateKeepsPlugged(d: Carts, hasCartOrder: bool, plates: seq<Plate>, aps: seq<ActivePlugging>,
                             offline: seq<int>, i: int)
    requires Valid(d) && Allocate(d, hasCartOrder, plates, aps, offline).Ok?
    requires 0 <= i < |Candidates(plates, Capacity(d, hasCartOrder))|
    requires Candidates(plates, Capacity(d, hasCartOrder))[i].isPlugged
    ensures var p := Candidates(plates, Capacity(d, hasCartOrder))[i];
            PlacedAt(Allocate(d, hasCartOrder, plates, aps, offline).value.run, p.activeCart, p, AlreadyPlugged)
  {
    var ps := Candidates(plates, Capacity(d, hasCartOrder));
    StartInv(d, aps, offline);
    var r0 := Start(d, aps, offline).value;
    PlaceKeeps(r0, ps);
    PlacePlugged(r0, ps, i);
    AfterPlaceKeep(Place(r0, ps).value, ps, offline, ps[i].activeCart, ps[i], AlreadyPlugged);
  }

  /** Every candidate is allocated and ends in a cart of its own, with its message. */
  lemma AllocatePlacesAll(d: Carts, hasCartOrder: bool, plates: seq<Plate>, aps: seq<ActivePlugging>,
                          offline: seq<int>, i: int)
    requires Valid(d) && Allocate(d, hasCartOrder, plates, aps, offline).Ok?
    requires 0 <= i < |Candidates(plates, Capacity(d, hasCartOrder))|
    ensures var p := Candidates(plates, Capacity(d, hasCartOrder))[i];
            var t := Allocate(d, hasCartOrder, plates, aps, offline).value.run;
            p in t.allocatedPlates && Placed(t, p)
  {
    var ps := Candidates(plates, Capacity(d, hasCartOrder));
    StartInv(d, aps, offline);
    var r0 := Start(d, aps, offline).value;
    var r1 := Place(r0, ps).value;
    PlaceKeeps(r0, ps);
    var r2 := Replug(r1, ps, offline).value;
    ReplugKeeps(r1, ps, offline);
    var r2' := r2.(pending := Prioritise.Prioritised(r2.pending));
    Reprioritise(r2);
    var r3 := Fill(r2', ps).value;
    FillCovers(r2', ps, i);
    var c, dp :| PlacedAt(r3, c, ps[i], dp);
    DisposeOther(r3, r3.pending, c);
    assert PlacedAt(Dispose(r3, r3.pending), c, ps[i], dp);
  }

  /**
    Each cart left over after phase 3 gets the message of its own status, and holds its plate
    when it keeps it (not complete, a MaNGA plate in it) or stays `None` otherwise.
   */
  lemma AllocateLeftover(d: Carts, hasCartOrder: bool, plates: seq<Plate>, aps: seq<ActivePlugging>,
                         offline: seq<int>, st: CartStatus)
    requires Valid(d) && Allocate(d, hasCartOrder, plates, aps, offline).Ok?
    requires st in Allocate(d, hasCartOrder, plates, aps, offline).value.run.pending
    ensures var t := Allocate(d, hasCartOrder, plates, aps, offline).value.run;
            st.cart in t.messages && t.messages[st.cart] == Disposal(st)
            && st.cart in t.carts.slots && t.carts.slots[st.cart] == (if Keeps(st) then st.plate else None)
  {
    var ps := Candidates(plates, Capacity(d, hasCartOrder));
    StartInv(d, aps, offline);
    var r0 := Start(d, aps, offline).value;
    var r1 := Place(r0, ps).value;
    PlaceKeeps(r0, ps);
    var r2 := Replug(r1, ps, offline).value;
    ReplugKeeps(r1, ps, offline);
    var r2' := r2.(pending := Prioritise.Prioritised(r2.pending));
    Reprioritise(r2);
    var r3 := Fill(r2', ps).value;
    FillKeeps(r2', ps);
    var k :| 0 <= k < |r3.pending| && r3.pending[k] == st;
    DisposeAt(r3, r3.pending, k);
  }

  /** Every cart free after the offline pass starts phase 1 pending with its own status. */
  lemma StartTraced(d: Carts, aps: seq<ActivePlugging>, offline: seq<int>, c: int)
    requires Valid(d) && Start(d, aps, offline).Ok?
    requires var e := MarkOffline(d, aps, offline); c in e.keys && c in e.slots && e.slots[c] == None
    ensures Classifier.GetCartStatus(aps, c).Ok?
    ensures var st := Classifier.GetCartStatus(aps, c).value;
            Inv(Start(d, aps, offline).value) && st in Start(d, aps, offline).value.pending
            && Prioritise.Known(st.statusLabel)
  {
    var e := MarkOffline(d, aps, offline);
    StartInv(d, aps, offline);
    StatusesCover(e.keys, e, aps, c);
  }

  /** The phases keep accounted for every cart whose label is known. */
  lemma PhasesTraced(r0: Run, ps: seq<Plate>, offline: seq<int>, st: CartStatus)
    requires Inv(r0) && Phases(r0, ps, offline).Ok? && Traced(r0, st) && Prioritise.Known(st.statusLabel)
    ensures Traced(Phases(r0, ps, offline).value, st)
  {
    var r1 := Place(r0, ps).value;
    PlaceKeeps(r0, ps);
    PlaceTraced(r0, ps, st);
    var r2 := Replug(r1, ps, offline).value;
    ReplugKeeps(r1, ps, offline);
    ReplugTraced(r1, ps, offline, st);
    var r2' := r2.(pending := Prioritise.Prioritised(r2.pending));
    Reprioritise(r2);
    SortTraced(r2, st);
    var r3 := Fill(r2', ps).value;
    FillKeeps(r2', ps);
    FillTraced(r2', ps, st);
    if st !in r3.pending {
      var p, dp :| p in r3.allocatedPlates && PlacedAt(r3, st.cart, p, dp);
      DisposeOther(r3, r3.pending, st.cart);
      assert PlacedAt(Dispose(r3, r3.pending), st.cart, p, dp);
    }
  }

  /**
    Every cart that is free after the offline pass is accounted for at the end: either it holds a
    plate the allocation placed, or it is left over with the message of its own status and holds
    its plate when it keeps it.
   */
  lemma AllocateFreeCart(d: Carts, hasCartOrder: bool, plates: seq<Plate>, aps: seq<ActivePlugging>,
                         offline: seq<int>, c: int)
    requires Valid(d) && Allocate(d, hasCartOrder, plates, aps, offline).Ok?
    requires var e := MarkOffline(d, aps, offline); c in e.keys && c in e.slots && e.slots[c] == None
    ensures Classifier.GetCartStatus(aps, c).Ok?
    ensures var st := Classifier.GetCartStatus(aps, c).value;
            var t := Allocate(d, hasCartOrder, plates, aps, offline).value.run;
            (st in t.pending && c in t.messages && t.messages[c] == Disposal(st)
             && c in t.carts.slots && t.carts.slots[c] == (if Keeps(st) then st.plate else None))
            || (exists p, dp :: p in t.allocatedPlates && PlacedAt(t, c, p, dp))
  {
    StartTraced(d, aps, offline, c);
    var st := Classifier.GetCartStatus(aps, c).value;
    PhasesTraced(Start(d, aps, offline).value, Candidates(plates, Capacity(d, hasCartOrder)), offline, st);
    if st in Allocate(d, hasCartOrder, plates, aps, offline).value.run.pending {
      AllocateLeftover(d, hasCartOrder, plates, aps, offline, st);
    }
  }

  /**
    The allocation writes no new key: the final dictionary has the keys of the offline pass, in
    its order, that is the original keys and the offline primary keys of active pluggings.
   */
  lemma AllocateKeys(d: Carts, hasCartOrder: bool, plates: seq<Plate>, aps: seq<ActivePlugging>,
                     offline: seq<int>, c: int)
    requires Valid(d) && Allocate(d, hasCartOrder, plates, aps, offline).Ok?
    ensures var t := Allocate(d, hasCartOrder, plates, aps, offline).value.run;
            Valid(t.carts) && t.carts.keys == MarkOffline(d, aps, offline).keys
            && (c in t.carts.slots <==> c in d.slots || Marked(aps, offline, c))
  {
    var ps := Candidates(plates, Capacity(d, hasCartOrder));
    StartInv(d, aps, offline);
    MarkOfflineAt(d, aps, offline, c);
    var r0 := Start(d, aps, offline).value;
    var r1 := Place(r0, ps).value;
    PlaceKeeps(r0, ps);
    var r2 := Replug(r1, ps, offline).value;
    ReplugKeeps(r1, ps, offline);
    var r2' := r2.(pending := Prioritise.Prioritised(r2.pending));
    Reprioritise(r2);
    var r3 := Fill(r2', ps).value;
    FillKeeps(r2', ps);
    DisposeKeys(r3, r3.pending);
  }

  /** No plate listed twice. */
  predicate NoRepeats(ps: seq<Plate>) {
    forall i, j :: 0 <= i < j < |ps| ==> ps[i] != ps[j]
  }

  lemma {:induction false} ElementsAtMost(s: seq<Plate>)
    ensures |set p | p in s| <= |s|
  {
    if s != [] {
      ElementsAtMost(s[1..]);
      assert (set p | p in s) == (set p | p in s[1..]) + {s[0]};
    }
  }

  lemma {:induction false} ElementsExactly(s: seq<Plate>)
    requires NoRepeats(s)
    ensures |set p | p in s| == |s|
  {
    if s != [] {
      assert NoRepeats(s[1..]) by {
        forall i, j | 0 <= i < j < |s[1..]| ensures s[1..][i] != s[1..][j] {
          assert s[1..][i] == s[i + 1] && s[1..][j] == s[j + 1];
        }
      }
      ElementsExactly(s[1..]);
      assert s[0] !in s[1..] by {
        forall k | 0 <= k < |s[1..]| ensures s[1..][k] != s[0] {
          assert s[1..][k] == s[k + 1];
        }
      }
      assert (set p | p in s) == (set p | p in s[1..]) + {s[0]};
    }
  }

  lemma SubsetAtMost(a: set<Plate>, b: set<Plate>)
    requires a <= b
    ensures |a| <= |b|
  {
    assert b == a + (b - a);
    assert a * (b - a) == {};
  }

  /** Every candidate is among the allocated plates. */
  lemma AllocateCovers(d: Carts, hasCartOrder: bool, plates: seq<Plate>, aps: seq<ActivePlugging>,
                       offline: seq<int>)
    requires Valid(d) && Allocate(d, hasCartOrder, plates, aps, offline).Ok?
    ensures var t := Allocate(d, hasCartOrder, plates, aps, offline).value.run;
            (set p | p in Candidates(plates, Capacity(d, hasCartOrder))) <= (set p | p in t.allocatedPlates)
  {
    var ps := Candidates(plates, Capacity(d, hasCartOrder));
    forall p | p in ps ensures p in Allocate(d, hasCartOrder, plates, aps, offline).value.run.allocatedPlates {
      var i :| 0 <= i < |ps| && ps[i] == p;
      AllocatePlacesAll(d, hasCartOrder, plates, aps, offline, i);
    }
  }

  /**
    When no plate is listed twice the "plates have not been allocated" count is zero: a shortage
    of carts makes phase 3 fail instead.
   */
  lemma AllocateNoneUnallocated(d: Carts, hasCartOrder: bool, plates: seq<Plate>, aps: seq<ActivePlugging>,
                                offline: seq<int>)
    requires Valid(d) && Allocate(d, hasCartOrder, plates, aps, offline).Ok?
    requires NoRepeats(plates)
    ensures Allocate(d, hasCartOrder, plates, aps, offline).value.unallocated == 0
  {
    var ps := Candidates(plates, Capacity(d, hasCartOrder));
    var o := Allocate(d, hasCartOrder, plates, aps, offline).value;
    assert NoRepeats(ps) by {
      forall i, j | 0 <= i < j < |ps| ensures ps[i] != ps[j] {
        assert ps[i] == plates[i] && ps[j] == plates[j];
      }
    }
    AllocateCovers(d, hasCartOrder, plates, aps, offline);
    ElementsExactly(ps);
    ElementsAtMost(o.run.allocatedPlates);
    SubsetAtMost(set p | p in ps, set p | p in o.run.allocatedPlates);
    assert o.unallocated == if |ps| > |o.run.allocatedPlates| then |ps| - |o.run.allocatedPlates| else 0;
  }
}
