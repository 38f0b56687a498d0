/**
  `prioritiseCarts`: a bucket sort of cart statuses by label, the started bucket sorted by
  completion, giving the order in which carts are taken by the greedy fill.
 */
module Prioritise {
  import opened Entities
  import Sorting

  /** The statuses labelled `l`, in their input order. */
  function Bucket(s: seq<CartStatus>, l: Label): (r: seq<CartStatus>)
    ensures |r| <= |s|
  {
    if s == [] then [] else Bucket(s[..|s| - 1], l) + (if s[|s| - 1].statusLabel == l then [s[|s| - 1]] else [])
  }

  /** A status is in bucket `l` exactly when it is in the input with label `l`. */
  lemma {:induction false} BucketMember(s: seq<CartStatus>, l: Label, e: CartStatus)
    ensures e in Bucket(s, l) <==> e in s && e.statusLabel == l
  {
    if s != [] {
      BucketMember(s[..|s| - 1], l, e);
      assert s == s[..|s| - 1] + [s[|s| - 1]];
    }
  }

  /** Every status in bucket `l` is labelled `l` and comes from the input. */
  lemma BucketLabelled(s: seq<CartStatus>, l: Label)
    ensures forall e :: e in Bucket(s, l) ==> e in s && e.statusLabel == l
  {
    forall e | e in Bucket(s, l) ensures e in s && e.statusLabel == l {
      BucketMember(s, l, e);
    }
  }

  /** The six labels `prioritiseCarts` knows; a status with any other label is dropped. */
  predicate Known(l: Label) {
    l == Empty || l == NoMaNGAPlate || l == MaNGAComplete || l == MaNGANoStarted
    || l == Unknown || l == MaNGAStarted
  }

  /** The statuses with a known label, in their input order. */
  function Retained(s: seq<CartStatus>): seq<CartStatus> {
    if s == [] then []
    else Retained(s[..|s| - 1]) + (if Known(s[|s| - 1].statusLabel) then [s[|s| - 1]] else [])
  }

  /** The sort key of the started bucket, the fifth element of the tuple. */
  function Completion(st: CartStatus): real {
    st.completion
  }

  /** The order of the result: empty, complete, unknown, noMaNGA, noStarted, started. */
  function Rank(l: Label): nat {
    if l == Empty then 0
    else if l == MaNGAComplete then 1
    else if l == Unknown then 2
    else if l == NoMaNGAPlate then 3
    else if l == MaNGANoStarted then 4
    else if l == MaNGAStarted then 5
    else 6
  }

  function Prioritised(s: seq<CartStatus>): seq<CartStatus> {
    Bucket(s, Empty) + Bucket(s, MaNGAComplete) + Bucket(s, Unknown)
    + Bucket(s, NoMaNGAPlate) + Bucket(s, MaNGANoStarted)
    + Sorting.SortBy(Bucket(s, MaNGAStarted), Completion)
  }

  method PrioritiseCarts(cartStatus: seq<CartStatus>) returns (sorted: seq<CartStatus>)
    ensures sorted == Prioritised(cartStatus)
  {
    var empty, noMaNGA, complete, noStarted, unknown, started := [], [], [], [], [], [];
    for i := 0 to |cartStatus|
      invariant empty == Bucket(cartStatus[..i], Empty)
      invariant noMaNGA == Bucket(cartStatus[..i], NoMaNGAPlate)
      invariant complete == Bucket(cartStatus[..i], MaNGAComplete)
      invariant noStarted == Bucket(cartStatus[..i], MaNGANoStarted)
      invariant unknown == Bucket(cartStatus[..i], Unknown)
      invariant started == Bucket(cartStatus[..i], MaNGAStarted)
    {
      assert cartStatus[..i + 1][..i] == cartStatus[..i];
      var cart := cartStatus[i];
      var statusLabel := cart.statusLabel;
      if statusLabel == Empty {
        empty := empty + [cart];
      } else if statusLabel == NoMaNGAPlate {
        noMaNGA := noMaNGA + [cart];
      } else if statusLabel == MaNGAComplete {
        complete := complete + [cart];
      } else if statusLabel == MaNGANoStarted {
        noStarted := noStarted + [cart];
      } else if statusLabel == Unknown {
        unknown := unknown + [cart];
      } else if statusLabel == MaNGAStarted {
        started := started + [cart];
      }
    }
    assert cartStatus[..|cartStatus|] == cartStatus;
    started := Sorting.SortBy(started, Completion);
    sorted := empty + complete + unknown + noMaNGA + noStarted + started;
  }

  lemma {:induction false} BucketConcat(a: seq<CartStatus>, b: seq<CartStatus>, l: Label)
    ensures Bucket(a + b, l) == Bucket(a, l) + Bucket(b, l)
  {
    if b == [] {
      assert a + b == a;
    } else {
      assert (a + b)[..|a + b| - 1] == a + b[..|b| - 1];
      assert (a + b)[|a + b| - 1] == b[|b| - 1];
      BucketConcat(a, b[..|b| - 1], l);
    }
  }

  lemma {:induction false} BucketAll(s: seq<CartStatus>, l: Label)
    requires forall e :: e in s ==> e.statusLabel == l
    ensures Bucket(s, l) == s
  {
    if s != [] {
      BucketAll(s[..|s| - 1], l);
    }
  }

  lemma {:induction false} BucketNone(s: seq<CartStatus>, l: Label)
    requires forall e :: e in s ==> e.statusLabel != l
    ensures Bucket(s, l) == []
  {
    if s != [] {
      BucketNone(s[..|s| - 1], l);
    }
  }

  /** How often a status occurs in bucket `l`. */
  lemma {:induction false} BucketCount(s: seq<CartStatus>, l: Label, e: CartStatus)
    ensures multiset(Bucket(s, l))[e] == if e.statusLabel == l then multiset(s)[e] else 0
  {
    if s != [] {
      BucketCount(s[..|s| - 1], l, e);
      assert s == s[..|s| - 1] + [s[|s| - 1]];
    }
  }

  /** How often a status occurs in the retained input. */
  lemma {:induction false} RetainedCount(s: seq<CartStatus>, e: CartStatus)
    ensures multiset(Retained(s))[e] == if Known(e.statusLabel) then multiset(s)[e] else 0
  {
    if s != [] {
      RetainedCount(s[..|s| - 1], e);
      assert s == s[..|s| - 1] + [s[|s| - 1]];
    }
  }

  /** The sorted started bucket holds started statuses only, the same ones as before sorting. */
  lemma SortedStartedBucket(s: seq<CartStatus>)
    ensures var st := Sorting.SortBy(Bucket(s, MaNGAStarted), Completion);
            (forall e :: e in st ==> e.statusLabel == MaNGAStarted)
            && multiset(st) == multiset(Bucket(s, MaNGAStarted))
  {
    var b := Bucket(s, MaNGAStarted);
    Sorting.SortPermutes(b, Completion);
    BucketLabelled(s, MaNGAStarted);
    var st := Sorting.SortBy(b, Completion);
    forall e | e in st ensures e.statusLabel == MaNGAStarted {
      assert e in multiset(st);
      assert e in b;
    }
  }

  /** The result holds each status as often as the retained input does. */
  lemma PrioritisedCount(s: seq<CartStatus>, e: CartStatus)
    ensures multiset(Prioritised(s))[e] == multiset(Retained(s))[e]
  {
    SortedStartedBucket(s);
    BucketCount(s, Empty, e);
    BucketCount(s, MaNGAComplete, e);
    BucketCount(s, Unknown, e);
    BucketCount(s, NoMaNGAPlate, e);
    BucketCount(s, MaNGANoStarted, e);
    BucketCount(s, MaNGAStarted, e);
    RetainedCount(s, e);
  }

  /** The result is a permutation of the statuses whose label is known. */
  lemma PrioritisedPermutes(s: seq<CartStatus>)
    ensures multiset(Prioritised(s)) == multiset(Retained(s))
  {
    forall e ensures multiset(Prioritised(s))[e] == multiset(Retained(s))[e] {
      PrioritisedCount(s, e);
    }
  }

  /** The result holds only statuses of the input, each at most as often. */
  lemma PrioritisedFromInput(s: seq<CartStatus>)
    ensures multiset(Prioritised(s)) <= multiset(s)
  {
    forall e ensures multiset(Prioritised(s))[e] <= multiset(s)[e] {
      PrioritisedCount(s, e);
      RetainedCount(s, e);
    }
  }

  /** A status is kept by the prioritisation exactly when it is in the input with a known label. */
  lemma PrioritisedMember(s: seq<CartStatus>, e: CartStatus)
    ensures e in Prioritised(s) <==> e in s && Known(e.statusLabel)
  {
    BucketMember(s, Empty, e);
    BucketMember(s, MaNGAComplete, e);
    BucketMember(s, Unknown, e);
    BucketMember(s, NoMaNGAPlate, e);
    BucketMember(s, MaNGANoStarted, e);
    BucketMember(s, MaNGAStarted, e);
    Sorting.SortPermutes(Bucket(s, MaNGAStarted), Completion);
    assert e in Sorting.SortBy(Bucket(s, MaNGAStarted), Completion) <==> e in Bucket(s, MaNGAStarted) by {
      assert e in multiset(Sorting.SortBy(Bucket(s, MaNGAStarted), Completion)) <==> e in multiset(Bucket(s, MaNGAStarted));
    }
  }

  /** Every status of `s` has rank at most `k`. */
  predicate RanksAtMost(s: seq<CartStatus>, k: nat) {
    forall e :: e in s ==> Rank(e.statusLabel) <= k
  }

  /** The ranks along `s` never decrease. */
  predicate Ranked(s: seq<CartStatus>) {
    forall i, j :: 0 <= i < j < |s| ==> Rank(s[i].statusLabel) <= Rank(s[j].statusLabel)
  }

  lemma RankedAppend(a: seq<CartStatus>, b: seq<CartStatus>, l: Label)
    requires Ranked(a) && RanksAtMost(a, Rank(l))
    requires forall e :: e in b ==> e.statusLabel == l
    ensures Ranked(a + b) && RanksAtMost(a + b, Rank(l))
  {
    var r := a + b;
    forall i, j | 0 <= i < j < |r| ensures Rank(r[i].statusLabel) <= Rank(r[j].statusLabel) {
      if j >= |a| {
        assert r[j] == b[j - |a|];
        if i < |a| { assert r[i] in a; } else { assert r[i] == b[i - |a|]; }
      }
    }
  }

  /** Six parts labelled empty, complete, unknown, noMaNGA, noStarted and started, in this order. */
  predicate SixParts(b0: seq<CartStatus>, b1: seq<CartStatus>, b2: seq<CartStatus>,
                     b3: seq<CartStatus>, b4: seq<CartStatus>, b5: seq<CartStatus>) {
    && (forall e :: e in b0 ==> e.statusLabel == Empty)
    && (forall e :: e in b1 ==> e.statusLabel == MaNGAComplete)
    && (forall e :: e in b2 ==> e.statusLabel == Unknown)
    && (forall e :: e in b3 ==> e.statusLabel == NoMaNGAPlate)
    && (forall e :: e in b4 ==> e.statusLabel == MaNGANoStarted)
    && (forall e :: e in b5 ==> e.statusLabel == MaNGAStarted)
  }

  lemma RankedTwo(b0: seq<CartStatus>, b1: seq<CartStatus>)
    requires forall e :: e in b0 ==> e.statusLabel == Empty
    requires forall e :: e in b1 ==> e.statusLabel == MaNGAComplete
    ensures Ranked(b0 + b1) && RanksAtMost(b0 + b1, 1)
  {
    RankedAppend([], b0, Empty);
    assert [] + b0 == b0;
    RankedAppend(b0, b1, MaNGAComplete);
  }

  lemma RankedFour(b0: seq<CartStatus>, b1: seq<CartStatus>, b2: seq<CartStatus>, b3: seq<CartStatus>)
    requires forall e :: e in b0 ==> e.statusLabel == Empty
    requires forall e :: e in b1 ==> e.statusLabel == MaNGAComplete
    requires forall e :: e in b2 ==> e.statusLabel == Unknown
    requires forall e :: e in b3 ==> e.statusLabel == NoMaNGAPlate
    ensures Ranked(b0 + b1 + b2 + b3) && RanksAtMost(b0 + b1 + b2 + b3, 3)
  {
    RankedTwo(b0, b1);
    RankedAppend(b0 + b1, b2, Unknown);
    RankedAppend(b0 + b1 + b2, b3, NoMaNGAPlate);
  }

  /** Six parts labelled in the order of the ranks, one after the other, are ranked. */
  lemma RankedParts(b0: seq<CartStatus>, b1: seq<CartStatus>, b2: seq<CartStatus>,
                    b3: seq<CartStatus>, b4: seq<CartStatus>, b5: seq<CartStatus>)
    requires SixParts(b0, b1, b2, b3, b4, b5)
    ensures Ranked(b0 + b1 + b2 + b3 + b4 + b5)
  {
    RankedFour(b0, b1, b2, b3);
    RankedAppend(b0 + b1 + b2 + b3, b4, MaNGANoStarted);
    RankedAppend(b0 + b1 + b2 + b3 + b4, b5, MaNGAStarted);
  }

  /** The six parts of the result. */
  lemma PrioritisedParts(s: seq<CartStatus>)
    ensures SixParts(Bucket(s, Empty), Bucket(s, MaNGAComplete), Bucket(s, Unknown),
                     Bucket(s, NoMaNGAPlate), Bucket(s, MaNGANoStarted),
                     Sorting.SortBy(Bucket(s, MaNGAStarted), Completion))
  {
    SortedStartedBucket(s);
    BucketLabelled(s, Empty);
    BucketLabelled(s, MaNGAComplete);
    BucketLabelled(s, Unknown);
    BucketLabelled(s, NoMaNGAPlate);
    BucketLabelled(s, MaNGANoStarted);
  }

  /**
    The result runs through the buckets in the order empty, complete, unknown, noMaNGA,
    noStarted, started, and holds no status with another label.
   */
  lemma PrioritisedRanked(s: seq<CartStatus>)
    ensures forall e :: e in Prioritised(s) ==> Known(e.statusLabel)
    ensures Ranked(Prioritised(s))
  {
    PrioritisedParts(s);
    RankedParts(Bucket(s, Empty), Bucket(s, MaNGAComplete), Bucket(s, Unknown),
                Bucket(s, NoMaNGAPlate), Bucket(s, MaNGANoStarted),
                Sorting.SortBy(Bucket(s, MaNGAStarted), Completion));
    forall e | e in Prioritised(s) ensures Known(e.statusLabel) {
      PrioritisedMember(s, e);
    }
  }

  /** Picking by label `l` from three parts of which only the middle one is labelled `l`. */
  lemma PickMiddle(pre: seq<CartStatus>, mid: seq<CartStatus>, post: seq<CartStatus>, l: Label)
    requires forall e :: e in pre + post ==> e.statusLabel != l
    requires forall e :: e in mid ==> e.statusLabel == l
    ensures Bucket(pre + mid + post, l) == mid
  {
    BucketConcat(pre + mid, post, l);
    BucketConcat(pre, mid, l);
    BucketNone(pre, l);
    BucketNone(post, l);
    BucketAll(mid, l);
    assert [] + mid + [] == mid;
  }

  /** Picking by a label from six parts labelled as `SixParts` says. */
  lemma PickFromSix(b0: seq<CartStatus>, b1: seq<CartStatus>, b2: seq<CartStatus>,
                    b3: seq<CartStatus>, b4: seq<CartStatus>, b5: seq<CartStatus>, l: Label)
    requires SixParts(b0, b1, b2, b3, b4, b5)
    ensures Bucket(b0 + b1 + b2 + b3 + b4 + b5, l)
         == match l
            case Empty => b0
            case MaNGAComplete => b1
            case Unknown => b2
            case NoMaNGAPlate => b3
            case MaNGANoStarted => b4
            case MaNGAStarted => b5
            case Other(_) => []
  {
    match l
    case Empty =>
      assert b0 + b1 + b2 + b3 + b4 + b5 == [] + b0 + (b1 + b2 + b3 + b4 + b5);
      PickMiddle([], b0, b1 + b2 + b3 + b4 + b5, l);
    case MaNGAComplete =>
      assert b0 + b1 + b2 + b3 + b4 + b5 == b0 + b1 + (b2 + b3 + b4 + b5);
      PickMiddle(b0, b1, b2 + b3 + b4 + b5, l);
    case Unknown =>
      assert b0 + b1 + b2 + b3 + b4 + b5 == (b0 + b1) + b2 + (b3 + b4 + b5);
      PickMiddle(b0 + b1, b2, b3 + b4 + b5, l);
    case NoMaNGAPlate =>
      assert b0 + b1 + b2 + b3 + b4 + b5 == (b0 + b1 + b2) + b3 + (b4 + b5);
      PickMiddle(b0 + b1 + b2, b3, b4 + b5, l);
    case MaNGANoStarted =>
      assert b0 + b1 + b2 + b3 + b4 + b5 == (b0 + b1 + b2 + b3) + b4 + b5;
      PickMiddle(b0 + b1 + b2 + b3, b4, b5, l);
    case MaNGAStarted =>
      assert b0 + b1 + b2 + b3 + b4 + b5 == (b0 + b1 + b2 + b3 + b4) + b5 + [];
      PickMiddle(b0 + b1 + b2 + b3 + b4, b5, [], l);
    case Other(_) =>
      BucketNone(b0 + b1 + b2 + b3 + b4 + b5, l);
  }

  /** A bucket other than `started` comes out in its input order. */
  lemma PrioritisedBucket(s: seq<CartStatus>, l: Label)
    requires Known(l) && l != MaNGAStarted
    ensures Bucket(Prioritised(s), l) == Bucket(s, l)
  {
    PrioritisedParts(s);
    PickFromSix(Bucket(s, Empty), Bucket(s, MaNGAComplete), Bucket(s, Unknown),
                Bucket(s, NoMaNGAPlate), Bucket(s, MaNGANoStarted),
                Sorting.SortBy(Bucket(s, MaNGAStarted), Completion), l);
  }

  /** The started bucket of the result is the input's started bucket, sorted. */
  lemma PrioritisedStartedBucket(s: seq<CartStatus>)
    ensures Bucket(Prioritised(s), MaNGAStarted) == Sorting.SortBy(Bucket(s, MaNGAStarted), Completion)
  {
    PrioritisedParts(s);
    PickFromSix(Bucket(s, Empty), Bucket(s, MaNGAComplete), Bucket(s, Unknown),
                Bucket(s, NoMaNGAPlate), Bucket(s, MaNGANoStarted),
                Sorting.SortBy(Bucket(s, MaNGAStarted), Completion), MaNGAStarted);
  }

  /**
    Each of the first five buckets keeps its input order; the started bucket is its input
    bucket sorted ascending by completion, keeping input order among equal completions.
   */
  lemma PrioritisedBuckets(s: seq<CartStatus>)
    ensures forall l :: Known(l) && l != MaNGAStarted ==> Bucket(Prioritised(s), l) == Bucket(s, l)
    ensures Sorting.SortedBy(Bucket(Prioritised(s), MaNGAStarted), Completion)
    ensures forall k :: Sorting.KeyFilter(Bucket(Prioritised(s), MaNGAStarted), Completion, k)
                     == Sorting.KeyFilter(Bucket(s, MaNGAStarted), Completion, k)
  {
    forall l | Known(l) && l != MaNGAStarted ensures Bucket(Prioritised(s), l) == Bucket(s, l) {
      PrioritisedBucket(s, l);
    }
    PrioritisedStartedBucket(s);
    Sorting.SortSorted(Bucket(s, MaNGAStarted), Completion);
    forall k ensures Sorting.KeyFilter(Sorting.SortBy(Bucket(s, MaNGAStarted), Completion), Completion, k)
                  == Sorting.KeyFilter(Bucket(s, MaNGAStarted), Completion, k) {
      Sorting.SortStable(Bucket(s, MaNGAStarted), Completion, k);
    }
  }
}
