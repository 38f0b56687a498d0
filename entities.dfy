/**
  The records the cart-allocation engine works on: plates, past and active pluggings, the
  configuration it reads, the per-cart status tuple and the errors it can raise.
 */
module Entities {
  import opened Wrappers

  /** One past plugging of a plate: its scan MJD (`fscan_mjd`) and the cart it used. */
  datatype Plugging = Plugging(fscanMjd: int, cart: int)

  /**
    A plate as the allocation engine sees it. The completion fractions and the set statuses are
    computed elsewhere and are taken as given:
    - `completion` is `getPlateCompletion()`,
    - `completionInclIncomplete` is `getPlateCompletion(includeIncompleteSets=True)`,
    - `completionNoMock` is `getPlateCompletion(useMock=False)`,
    - `hasIncompleteSets` is `hasIncompleteSets()`,
    - `setStatuses` holds `ss.getStatus()[0]` for every set `ss` of the plate,
    - `mockExposures` is `len(getMockExposures())`, the exposures the timeline planned,
    - `isMaNGA` says the current survey mode exists and its label contains "MaNGA",
    - `isReplug` is the flag that plate selection may set (absent attribute = false).
   */
  datatype Plate = Plate(
    plateId: int,
    priority: int,
    isPlugged: bool,
    activeCart: int,
    isMaNGA: bool,
    isComplete: bool,
    completion: real,
    completionInclIncomplete: real,
    completionNoMock: real,
    hasIncompleteSets: bool,
    setStatuses: seq<string>,
    pluggings: seq<Plugging>,
    mockExposures: nat,
    isReplug: bool)

  /** An active plugging record: its primary key, the cart it occupies and the plate in it. */
  datatype ActivePlugging = ActivePlugging(pk: int, cart: int, plate: Plate)

  /** The configuration values the engine reads. */
  datatype Config = Config(
    mangaCarts: seq<int>,
    apogeeCarts: seq<int>,
    offlineCarts: seq<int>,
    forcePlugPriority: int,
    noPlugPriority: int)

  /**
    The label of a cart status: one of the six labels of `cartStatusCodes`, or any other text,
    which `prioritiseCarts` ignores.
   */
  datatype Label = Empty | NoMaNGAPlate | MaNGAComplete | MaNGANoStarted | MaNGAStarted | Unknown
                 | Other(text: string)

  /** The text of a label as the status tuple carries it. */
  function LabelText(l: Label): string {
    match l
    case Empty => "empty"
    case NoMaNGAPlate => "noMaNGAplate"
    case MaNGAComplete => "MaNGA_complete"
    case MaNGANoStarted => "MaNGA_noStarted"
    case MaNGAStarted => "MaNGA_started"
    case Unknown => "unknown"
    case Other(text) => text
  }

  /** The `cartStatusCodes` dictionary: a status number and its label. */
  function CodeLabel(code: int): Option<Label> {
    match code
    case 0 => Some(Empty)
    case 1 => Some(NoMaNGAPlate)
    case 2 => Some(MaNGAComplete)
    case 3 => Some(MaNGANoStarted)
    case 4 => Some(MaNGAStarted)
    case 10 => Some(Unknown)
    case _ => None
  }

  /** The 5-tuple (cart_number, plate, status_number, status_code, completion). */
  datatype CartStatus = CartStatus(cart: int, plate: Option<Plate>, code: int, statusLabel: Label, completion: real)

  /** What happens to a cart, the tag of its `cartPlateMessage` entry. */
  datatype Disposition =
    | AlreadyPlugged
    | Replacing(statusCode: int)   // `replaceMsgs[statusCode]`
    | Unplug
    | Unchanged
    | NotDoingAnything

  datatype CartMessage = CartMessage(plate: Option<Plate>, disposition: Disposition)

  /** The exceptions the engine raises. */
  datatype PluggerError =
    | MultipleActivePluggings(cart: int)      // TotoroError: a cart with two active pluggings
    | MixedDates                              // TotoroPluggerError: only one date given
    | DatesOutOfOrder                         // AssertionError: jd0 < jd1 fails
    | PluggedCartUnavailable(cart: int)       // KeyError: cartStatus.pop of a plugged plate's cart
    | ReplugCartUnavailable(lastCart: Option<int>)  // KeyError: cartStatus[...] of a replug's last cart
    | NoCartLeft                              // IndexError: sortedCarts[0] on an empty list
    | CartOrderIsNotAPlate                    // the 'cart_order' entry met where a plate is expected
    | NoCartOrder                             // KeyError: self.carts['cart_order'] is missing
}
