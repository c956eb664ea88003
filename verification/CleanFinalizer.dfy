/** The clean finalizer on its own: migration from the legacy name, and the round trip of ensure and clean. */
module CleanFinalizer {
  import opened Basics
  import opened Pods
  import opened Machine
  import opened Runs

  /** The finalizers of everybody else. */
  function Foreign(name: string, finalizers: seq<string>): seq<string> {
    Without(Without(finalizers, OldClean(name)), CLEAN)
  }

  lemma ForeignOfEnsured(name: string, local: Employer)
    requires CLEAN !in local.finalizers
    ensures Foreign(name, EnsuredFinalizers(name, local)) == Foreign(name, local.finalizers)
  {
    var kept := Without(local.finalizers, OldClean(name));
    WithoutAppend(kept, [CLEAN], OldClean(name));
    assert Without([CLEAN], OldClean(name)) == [] || Without([CLEAN], OldClean(name)) == [CLEAN] by {
      assert [CLEAN][1..] == [];
    }
    WithoutAppend(kept, Without([CLEAN], OldClean(name)), CLEAN);
    assert Without([CLEAN], CLEAN) == [] by { assert [CLEAN][1..] == []; }
    assert Without(kept, OldClean(name)) == kept;
    assert kept + [] == kept;
  }

  /**
   Ensuring is idempotent: after it went through, or on an employer that needed nothing, a live employer
   holds the clean finalizer and nothing more is due.
   */
  lemma EnsureOnce(cfg: Config, w: World, local: Employer, w': World)
    requires !local.deleting && w.employer == Some(local)
    requires if NeedsClean(local) then CleanStep(cfg, w, local, true, w') else w' == w
    ensures HasClean(w') && !NeedsClean(w'.employer.value)
    ensures Foreign(cfg.name, w'.employer.value.finalizers) == Foreign(cfg.name, local.finalizers)
  {
    if NeedsClean(local) {
      ForeignOfEnsured(cfg.name, local);
    }
  }

  /**
   Cleaning after ensuring gives back the original list, in order, without the clean and legacy entries:
   from a live employer `local`, ensured as `mid`, later fetched deleting with the same finalizers.
   */
  lemma CleanAfterEnsure(cfg: Config, w: World, local: Employer, mid: World, later: World, fetched: Employer, w': World)
    requires !local.deleting && w.employer == Some(local)
    requires if NeedsClean(local) then CleanStep(cfg, w, local, true, mid) else mid == w
    requires later.employer.Some? && fetched.finalizers == later.employer.value.finalizers == mid.employer.value.finalizers
    requires later.employer.value.deleting && GateStep(cfg, later, fetched, true, true, w')
    ensures w'.employer == SettleEmployer(later.employer.value.(finalizers := Foreign(cfg.name, local.finalizers)))
    ensures !HasClean(w')
  {
    EnsureOnce(cfg, w, local, mid);
  }

  /** Lists of finalizers that are all somebody else's. */
  ghost predicate Others(name: string, finalizers: seq<string>) {
    && "resource-consist.kusionstack.io/clean-finalizer" !in finalizers
    && "resource-consist.kusionstack.io/clean-" + name !in finalizers
  }

  lemma WithoutNone(finalizers: seq<string>, flz: string)
    requires flz !in finalizers
    ensures Without(finalizers, flz) == finalizers
  {
  }

  /**
   The migration, with the names written out: an employer that holds its own legacy finalizer among others' holds
   theirs and the clean finalizer after ensuring, and only theirs, in order, after the gate; with none of theirs it is gone.
   */
  lemma LegacyMigrated(cfg: Config, w: World, local: Employer, mid: World, later: World, fetched: Employer, w': World,
                       before: seq<string>, after: seq<string>)
    requires !local.deleting && w.employer == Some(local) && cfg.name != "finalizer"
    requires Others(cfg.name, before) && Others(cfg.name, after)
    requires local.finalizers == before + ["resource-consist.kusionstack.io/clean-" + cfg.name] + after
    requires if NeedsClean(local) then CleanStep(cfg, w, local, true, mid) else mid == w
    requires later.employer == Some(fetched) && fetched.deleting && fetched.finalizers == mid.employer.value.finalizers
    requires GateStep(cfg, later, fetched, true, true, w')
    ensures mid.employer == Some(local.(finalizers := before + after + ["resource-consist.kusionstack.io/clean-finalizer"]))
    ensures w'.employer == if before + after == [] then None else Some(fetched.(finalizers := before + after))
  {
    var legacy := "resource-consist.kusionstack.io/clean-" + cfg.name;
    NamesDiffer(cfg.name);
    WithoutAppend(before + [legacy], after, legacy);
    WithoutSnoc(before, legacy, legacy);
    assert Without(local.finalizers, legacy) == before + after;
    WithoutSnoc(before + after, CLEAN, legacy);
    WithoutSnoc(before + after, CLEAN, CLEAN);
    WithoutNone(before + after, legacy);
    WithoutNone(before + after, CLEAN);
    hide Without;
  }

  lemma NamesDiffer(name: string)
    requires name != "finalizer"
    ensures "resource-consist.kusionstack.io/clean-" + name != "resource-consist.kusionstack.io/clean-finalizer"
  {
    var prefix := "resource-consist.kusionstack.io/clean-";
    assert (prefix + name)[|prefix|..] == name;
    assert "resource-consist.kusionstack.io/clean-finalizer" == prefix + "finalizer";
    assert (prefix + "finalizer")[|prefix|..] == "finalizer";
  }

  /** The foreign finalizers of a stored employer; one that is gone has none. */
  function ForeignOf(name: string, employer: Option<Employer>): seq<string> {
    if employer.Some? then Foreign(name, employer.value.finalizers) else []
  }

  /**
   The list written is computed from the reconciled copy, not from the object fetched just before: the foreign
   finalizers of the stored employer are kept if and only if nothing was due, or the reconciled copy had the same ones.
   */
  lemma ForeignKeptExactly(cfg: Config, w: World, local: Employer, w': World)
    requires w.employer.Some? && GateStep(cfg, w, local, true, true, w')
    ensures (ForeignOf(cfg.name, w'.employer) == ForeignOf(cfg.name, w.employer)) <==>
      ((CLEAN !in local.finalizers && OldClean(cfg.name) !in local.finalizers)
       || Foreign(cfg.name, local.finalizers) == Foreign(cfg.name, w.employer.value.finalizers))
  {
    var f := Foreign(cfg.name, local.finalizers);
    assert OldClean(cfg.name) !in f && CLEAN !in f;
    assert Foreign(cfg.name, f) == f;
  }
}
