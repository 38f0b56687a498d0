/**
  The filter of `Plugger.selectPlates` over the plates already fetched: plates with force-plug
  priority and plugged plates first, then every other plate that is above the no-plug priority
  and not complete, flagged as a replug when it has been started.
 */
module Selection {
  import opened Entities

  /** Taken whatever else holds: force-plug priority, or plugged already. */
  predicate Forced(p: Plate, cfg: Config) {
    p.priority == cfg.forcePlugPriority || p.isPlugged
  }

  /** A plate of the remainder that is kept: above the no-plug priority and not complete. */
  predicate Eligible(p: Plate, cfg: Config) {
    p.priority > cfg.noPlugPriority && !p.isComplete
  }

  /** A started plate (completion including incomplete sets above zero) is marked as a replug. */
  function MarkStarted(p: Plate): (q: Plate)
    ensures q.isReplug == (p.isReplug || p.completionInclIncomplete > 0.0)
    ensures q.(isReplug := p.isReplug) == p
  {
    if p.completionInclIncomplete > 0.0 then p.(isReplug := true) else p
  }

  /** The first list: the forced plates, in input order. */
  function ForcedPlates(plates: seq<Plate>, cfg: Config): seq<Plate> {
    if plates == [] then []
    else
      var p := plates[|plates| - 1];
      ForcedPlates(plates[..|plates| - 1], cfg) + if Forced(p, cfg) then [p] else []
  }

  /** The plates appended by the second loop, over the plates not in `first`, in input order. */
  function Remainder(plates: seq<Plate>, first: seq<Plate>, cfg: Config): seq<Plate> {
    if plates == [] then []
    else
      var p := plates[|plates| - 1];
      Remainder(plates[..|plates| - 1], first, cfg)
      + if p !in first && Eligible(p, cfg) then [MarkStarted(p)] else []
  }

  /** `platesToSchedule` as returned. */
  function Selected(plates: seq<Plate>, cfg: Config): seq<Plate> {
    var first := ForcedPlates(plates, cfg);
    first + Remainder(plates, first, cfg)
  }

  /** The two loops of `selectPlates` (the second one over a snapshot of the first list). */
  method SelectPlates(plates: seq<Plate>, cfg: Config) returns (platesToSchedule: seq<Plate>)
    ensures platesToSchedule == Selected(plates, cfg)
  {
    platesToSchedule := [];
    for i := 0 to |plates|
      invariant platesToSchedule == ForcedPlates(plates[..i], cfg)
    {
      assert plates[..i + 1][..i] == plates[..i];
      if plates[i].priority == cfg.forcePlugPriority || plates[i].isPlugged {
        platesToSchedule := platesToSchedule + [plates[i]];
      }
    }
    assert plates[..|plates|] == plates;
    var first := platesToSchedule;
    for i := 0 to |plates|
      invariant platesToSchedule == first + Remainder(plates[..i], first, cfg)
    {
      assert plates[..i + 1][..i] == plates[..i];
      var plate := plates[i];
      if plate in first {
        continue;
      }
      if plate.priority <= cfg.noPlugPriority {
        continue;
      }
      if plate.isComplete {
        continue;
      }
      if plate.completionInclIncomplete > 0.0 {
        plate := plate.(isReplug := true);
      }
      platesToSchedule := platesToSchedule + [plate];
    }
    assert plates[..|plates|] == plates;
  }

  // ---------------------------------------------------------------------------------------
  // What the selection promises.

  lemma {:induction false} ForcedMember(plates: seq<Plate>, cfg: Config, p: Plate)
    ensures p in ForcedPlates(plates, cfg) <==> p in plates && Forced(p, cfg)
  {
    if plates != [] {
      ForcedMember(plates[..|plates| - 1], cfg, p);
      assert plates == plates[..|plates| - 1] + [plates[|plates| - 1]];
    }
  }

  lemma {:induction false} RemainderMember(plates: seq<Plate>, first: seq<Plate>, cfg: Config, q: Plate)
    ensures q in Remainder(plates, first, cfg)
            <==> exists p :: p in plates && p !in first && Eligible(p, cfg) && q == MarkStarted(p)
  {
    if plates != [] {
      var init := plates[..|plates| - 1];
      RemainderMember(init, first, cfg, q);
      assert plates == init + [plates[|plates| - 1]];
      assert forall p :: p in plates <==> p in init || p == plates[|plates| - 1];
    }
  }

  /**
    A plate is selected exactly when it is forced, or it is not forced, above the no-plug
    priority and not complete; in the latter case it comes with the replug mark when started.
   */
  lemma SelectedMember(plates: seq<Plate>, cfg: Config, q: Plate)
    ensures q in Selected(plates, cfg)
            <==> (q in plates && Forced(q, cfg))
                 || exists p :: p in plates && !Forced(p, cfg) && Eligible(p, cfg) && q == MarkStarted(p)
  {
    var first := ForcedPlates(plates, cfg);
    ForcedMember(plates, cfg, q);
    RemainderMember(plates, first, cfg, q);
    if exists p :: p in plates && p !in first && Eligible(p, cfg) && q == MarkStarted(p) {
      var p :| p in plates && p !in first && Eligible(p, cfg) && q == MarkStarted(p);
      ForcedMember(plates, cfg, p);
    }
    if exists p :: p in plates && !Forced(p, cfg) && Eligible(p, cfg) && q == MarkStarted(p) {
      var p :| p in plates && !Forced(p, cfg) && Eligible(p, cfg) && q == MarkStarted(p);
      ForcedMember(plates, cfg, p);
    }
  }

  lemma {:induction false} RemainderNotForced(plates: seq<Plate>, first: seq<Plate>, cfg: Config)
    requires forall p :: p in plates && Forced(p, cfg) ==> p in first
    ensures forall q :: q in Remainder(plates, first, cfg) ==> !Forced(q, cfg)
  {
    if plates != [] {
      var init := plates[..|plates| - 1];
      assert forall p :: p in init ==> p in plates;
      RemainderNotForced(init, first, cfg);
    }
  }

  lemma {:induction false} ForcedAll(plates: seq<Plate>, cfg: Config)
    ensures forall q :: q in ForcedPlates(plates, cfg) ==> Forced(q, cfg)
  {
    if plates != [] {
      ForcedAll(plates[..|plates| - 1], cfg);
    }
  }

  /** Every forced plate comes before every other selected plate. */
  lemma SelectedForcedFirst(plates: seq<Plate>, cfg: Config, i: int, j: int)
    requires 0 <= i < j < |Selected(plates, cfg)| && Forced(Selected(plates, cfg)[j], cfg)
    ensures Forced(Selected(plates, cfg)[i], cfg)
  {
    var first := ForcedPlates(plates, cfg);
    var s := Selected(plates, cfg);
    forall p | p in plates && Forced(p, cfg) ensures p in first {
      ForcedMember(plates, cfg, p);
    }
    RemainderNotForced(plates, first, cfg);
    ForcedAll(plates, cfg);
    if j >= |first| {
      assert false;
    }
    assert s[i] in first;
  }
}
