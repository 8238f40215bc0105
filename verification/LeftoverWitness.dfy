/** The run of `LeftoverRun` on one concrete device, so that its conditions can be met. */
module LeftoverWitness {
  import opened Common
  import opened DeploymentWal
  import opened Device
  import opened Loader
  import opened PromotionSafety
  import opened Runs
  import opened Leftover
  import opened LeftoverRun
  import BundleFetch
  import PromoteSlots
  import Stage

  /** Three small releases and a platform that knows the first two. */
  const OLD := Release("image a", "tree a", "uki a", "sig a", Identity("hash a", "a"))
  const NEW := Release("image b", "tree b", "uki b", "sig b", Identity("hash b", "b"))
  const LAST := Release("image c", "tree c", "uki c", "sig c", Identity("hash c", "c"))

  const SMALL := Platform(
    (i, s) => (i == OLD.uki && s == OLD.sig) || (i == NEW.uki && s == NEW.sig),
    i => None, i => true, i => if i == OLD.uki then OLD.id else NEW.id,
    (i, t, h) => (i == OLD.image && t == OLD.tree && h == OLD.id.hash)
      || (i == NEW.image && t == NEW.tree && h == NEW.id.hash),
    false)

  function Trusting(): Stage.Trust {
    Stage.Trust((k, d, s) => true, c => None, (l, v) => false, b => None, (b, d) => true, (b, h) => true)
  }

  function StagingOf(r: Release): Third {
    Third(
      Stage.Manifest(r.id.version, "", r.id.hash, true, "", "", true, "", "", []),
      Stage.Delivery(Some(r.image), Some(r.tree), Some(r.uki), Some(r.sig),
        BundleFetch.Arrivals(b => None, b => None, BundleFetch.Anchor("", "", "", ""))),
      [], "", false)
  }

  /** Freshly installed: one release in the active slot, nothing else. */
  function FreshlyInstalled(): Sys {
    Sys(Disk(Slots(Some(0), None, None), Slots(Some(1), None, None), map[0 := OLD.image, 1 := OLD.tree], 2,
             Slots(Some(OLD.uki), None, None), Slots(Some(OLD.sig), None, None), None, map[]),
        WalFiles(Some(New("a")), Some(New("a"))), None, 0, [])
  }

  lemma SmallAtRest()
    ensures AtRest(SMALL, FreshlyInstalled(), OLD) && Limits(FreshlyInstalled(), 3, 3)
  {
  }

  lemma SmallOffered(s: Sys, x: Third)
    requires s == FreshlyInstalled() && x == StagingOf(NEW)
    ensures Offered(SMALL, Trusting(), s, x, OLD, NEW)
    ensures |Stage.Plan(Trusting(), s, x.man, x.dl, HostOf(OLD.id, x))| == 7
  {
    PlainCompletes(Trusting(), s, x, OLD.id);
  }

  lemma SmallPlain(y: Third)
    requires y == StagingOf(LAST)
    ensures Plain(Trusting(), y) && y.dl.rootImage != Some(OLD.image)
  {
  }

  /** It does happen: a freshly installed device, with three attempts and a threshold of three. */
  lemma LossHappens(s: Sys, x: Third, y: Third, hasStore: bool, u: Sys)
    requires s == FreshlyInstalled() && x == StagingOf(NEW) && y == StagingOf(LAST)
    requires u == Run(SMALL, Trusting(), State(s, Some(OLD.id)),
                      Opening(x, 3, 3, hasStore, 7) + Events(hasStore, 7, y)).sys
    ensures StartsWithoutRoot(SMALL, Cut(u, PromoteSlots.Plan(u.disk), 1), OLD)
  {
    SmallAtRest();
    SmallOffered(s, x);
    SmallPlain(y);
    InstallationToLoss(SMALL, Trusting(), s, x, y, OLD, NEW, 3, 3, hasStore, 7, u);
  }
}
