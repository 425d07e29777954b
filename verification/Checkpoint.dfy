/** Retention of checkpoints: a bounded list of step directories that should never lose the best one. */
module Checkpoint {
  import opened Common

  /** One save: its step (which names the directory) and its validation score, if any. */
  datatype Save = Save(step: nat, score: Option<real>)

  /** The retained directories in order, the best one with its score, and all deletions so far. */
  datatype Keeper = Keeper(saved: seq<nat>, best: Option<nat>, score: Option<real>, deleted: seq<nat>)

  const FRESH := Keeper([], None, None, [])

  /** Losses improve downwards, other metrics upwards; the initial score is beaten by every score. */
  predicate Improves(loss: bool, value: real, over: Option<real>) {
    match over
    case None => true
    case Some(held) => if loss then value < held else value > held
  }

  /** The index dropped by a save, when the list is over its limit. */
  function Dropped(dirs: seq<nat>, best: Option<nat>): nat
    requires dirs != []
  {
    if best == Some(dirs[0]) && |dirs| > 1 then 1 else 0
  }

  predicate OverLimit(maxKeep: int, count: nat) {
    count > maxKeep && maxKeep != -1
  }

  function Trim(maxKeep: int, k: Keeper, step: nat): Keeper {
    var dirs := k.saved + [step];
    if OverLimit(maxKeep, |dirs|) then
      var i := Dropped(dirs, k.best);
      k.(saved := dirs[..i] + dirs[i + 1..], deleted := k.deleted + [dirs[i]])
    else
      k.(saved := dirs)
  }

  function Rescore(loss: bool, k: Keeper, save: Save): Keeper {
    if save.score.Some? && Improves(loss, save.score.value, k.score) then
      k.(best := Some(save.step), score := save.score)
    else
      k
  }

  function AfterSave(maxKeep: int, loss: bool, k: Keeper, save: Save): Keeper {
    Rescore(loss, Trim(maxKeep, k, save.step), save)
  }

  class CheckpointManager {
    const maxKeep: int
    const loss: bool
    var savedDirs: seq<nat>
    var bestDir: Option<nat>
    var bestScore: Option<real>
    ghost var deletions: seq<nat>

    constructor (maxKeep: int, loss: bool)
      ensures this.maxKeep == maxKeep && this.loss == loss && View() == FRESH
    {
      this.maxKeep, this.loss := maxKeep, loss;
      savedDirs, bestDir, bestScore, deletions := [], None, None, [];
    }

    ghost function View(): Keeper
      reads this
    {
      Keeper(savedDirs, bestDir, bestScore, deletions)
    }

    /** Returns the directory to delete, if any. Only the master rank keeps checkpoints. */
    method SaveCheck(isMaster: bool, save: Save) returns (toDelete: Option<nat>)
      modifies this
      ensures View() == if isMaster then AfterSave(maxKeep, loss, old(View()), save) else old(View())
      ensures View().deleted == old(View()).deleted + if toDelete.Some? then [toDelete.value] else []
    {
      toDelete := None;
      if !isMaster {
        return;
      }
      savedDirs := savedDirs + [save.step];
      if |savedDirs| > maxKeep && maxKeep != -1 {
        var oldest := savedDirs[0];
        if bestDir == Some(oldest) && |savedDirs| > 1 {
          savedDirs := savedDirs[1..];
          toDelete := Some(savedDirs[0]);
          savedDirs := savedDirs[1..];
          savedDirs := [oldest] + savedDirs;
        } else {
          toDelete := Some(savedDirs[0]);
          savedDirs := savedDirs[1..];
        }
        deletions := deletions + [toDelete.value];
      }
      if save.score.Some? && Improves(loss, save.score.value, bestScore) {
        bestScore := save.score;
        bestDir := Some(save.step);
      }
    }
  }

  // ---------- runs ----------

  function Run(maxKeep: int, loss: bool, saves: seq<Save>): Keeper {
    if saves == [] then FRESH else AfterSave(maxKeep, loss, Run(maxKeep, loss, Front(saves)), saves[|saves| - 1])
  }

  function Front<T>(s: seq<T>): seq<T>
    requires s != []
  {
    s[..|s| - 1]
  }

  function Steps(saves: seq<Save>): seq<nat> {
    seq(|saves|, i requires 0 <= i < |saves| => saves[i].step)
  }

  predicate DistinctSteps(saves: seq<Save>) {
    forall i, j :: 0 <= i < j < |saves| ==> saves[i].step != saves[j].step
  }

  function Last<T>(s: seq<T>, n: int): seq<T> {
    if n <= 0 then [] else if |s| <= n then s else s[|s| - n..]
  }

  /** The last ones saved, or one earlier directory followed by the last ones but one. */
  predicate Recent(steps: seq<nat>, maxKeep: nat, saved: seq<nat>) {
    saved == Last(steps, maxKeep) || OldAndRecent(steps, maxKeep, saved)
  }

  predicate OldAndRecent(steps: seq<nat>, maxKeep: nat, saved: seq<nat>) {
    exists i :: 0 <= i < |steps| - maxKeep && saved == [steps[i]] + Last(steps, maxKeep - 1)
  }

  predicate BestKept(k: Keeper) {
    k.best.Some? ==> k.best.value in k.saved
  }

  /** Every save is retained or deleted, and nothing is deleted twice. */
  predicate Accounted(steps: seq<nat>, k: Keeper) {
    multiset(k.saved) + multiset(k.deleted) == multiset(steps)
  }

  lemma WithoutIndex(dirs: seq<nat>, i: nat)
    requires i < |dirs|
    ensures multiset(dirs) == multiset(dirs[..i] + dirs[i + 1..]) + multiset{dirs[i]}
  {
    assert dirs == dirs[..i] + [dirs[i]] + dirs[i + 1..];
  }

  lemma TrimAccounts(maxKeep: int, k: Keeper, steps: seq<nat>, step: nat)
    requires Accounted(steps, k)
    ensures Accounted(steps + [step], Trim(maxKeep, k, step))
  {
    var dirs := k.saved + [step];
    assert multiset(dirs) == multiset(k.saved) + multiset{step};
    assert multiset(steps + [step]) == multiset(steps) + multiset{step};
    if OverLimit(maxKeep, |dirs|) {
      var i := Dropped(dirs, k.best);
      assert Trim(maxKeep, k, step).saved == dirs[..i] + dirs[i + 1..];
      WithoutIndex(dirs, i);
      var left := dirs[..i] + dirs[i + 1..];
      assert multiset(k.deleted + [dirs[i]]) == multiset(k.deleted) + multiset{dirs[i]};
      assert multiset(left) + (multiset(k.deleted) + multiset{dirs[i]}) == multiset(dirs) + multiset(k.deleted);
    }
  }

  lemma LastAppend(steps: seq<nat>, step: nat, n: int)
    requires 0 < n
    ensures Last(steps + [step], n) == Last(steps, n - 1) + [step]
  {
  }

  lemma LastSplit(steps: seq<nat>, n: int)
    requires 1 < n <= |steps|
    ensures Last(steps, n) == [steps[|steps| - n]] + Last(steps, n - 1)
  {
  }

  /** A full list is one older directory and the last ones but one. */
  predicate OldThenLast(steps: seq<nat>, n: nat, saved: seq<nat>, i: nat)
    requires i < |steps|
  {
    saved == [steps[i]] + Last(steps, n - 1)
  }

  lemma FullList(maxKeep: nat, steps: seq<nat>, saved: seq<nat>) returns (i: nat)
    requires 2 <= maxKeep <= |steps| && Recent(steps, maxKeep, saved)
    ensures i <= |steps| - maxKeep && OldThenLast(steps, maxKeep, saved, i)
  {
    if saved == Last(steps, maxKeep) {
      LastSplit(steps, maxKeep);
      i := |steps| - maxKeep;
    } else {
      i :| 0 <= i < |steps| - maxKeep && saved == [steps[i]] + Last(steps, maxKeep - 1);
    }
  }

  lemma SecondDropped(maxKeep: nat, steps: seq<nat>, saved: seq<nat>, i: nat, step: nat)
    requires 2 <= maxKeep <= |steps| && i <= |steps| - maxKeep && OldThenLast(steps, maxKeep, saved, i)
    ensures [saved[0]] + (saved + [step])[2..] == [steps[i]] + Last(steps + [step], maxKeep - 1)
  {
    var tail := Last(steps, maxKeep - 1);
    LastAppend(steps, step, maxKeep - 1);
    if maxKeep > 2 { LastSplit(steps, maxKeep - 1); }
    assert tail[1..] == Last(steps, maxKeep - 2);
    assert (saved + [step])[2..] == tail[1..] + [step];
  }

  lemma FirstDropped(maxKeep: nat, steps: seq<nat>, saved: seq<nat>, i: nat, step: nat)
    requires 2 <= maxKeep <= |steps| && i <= |steps| - maxKeep && OldThenLast(steps, maxKeep, saved, i)
    ensures (saved + [step])[1..] == Last(steps + [step], maxKeep)
  {
    LastAppend(steps, step, maxKeep);
    assert (saved + [step])[1..] == Last(steps, maxKeep - 1) + [step];
  }

  /** How one save trims a list of the two shapes, for a limit of at least two: it spares the best. */
  lemma TrimRecent(maxKeep: nat, k: Keeper, steps: seq<nat>, step: nat)
    requires 2 <= maxKeep && Recent(steps, maxKeep, k.saved)
    ensures var t, spared := Trim(maxKeep, k, step).saved, |steps| >= maxKeep && k.best == Some(k.saved[0]);
            && Recent(steps + [step], maxKeep, t)
            && Trim(maxKeep, k, step).best == k.best && Trim(maxKeep, k, step).score == k.score
            && (spared ==> t == [k.saved[0]] + Last(steps + [step], maxKeep - 1))
            && (!spared ==> t == Last(steps + [step], maxKeep))
  {
    var steps', t := steps + [step], Trim(maxKeep, k, step).saved;
    var dirs := k.saved + [step];
    if |steps| < maxKeep {
      assert k.saved == steps;
    } else {
      var i := FullList(maxKeep, steps, k.saved);
      if k.best == Some(k.saved[0]) {
        SecondDropped(maxKeep, steps, k.saved, i, step);
        assert t == [k.saved[0]] + dirs[2..];
        assert steps'[i] == steps[i];
        assert OldAndRecent(steps', maxKeep, t);
      } else {
        FirstDropped(maxKeep, steps, k.saved, i, step);
        assert t == dirs[1..];
      }
    }
  }

  lemma TrimKeepsBest(maxKeep: nat, k: Keeper, step: nat)
    requires 2 <= maxKeep && |k.saved| <= maxKeep && BestKept(k)
    ensures BestKept(Trim(maxKeep, k, step)) && step in Trim(maxKeep, k, step).saved
  {
    var dirs, t := k.saved + [step], Trim(maxKeep, k, step).saved;
    assert dirs[|dirs| - 1] == step;
    if OverLimit(maxKeep, |dirs|) {
      var i := Dropped(dirs, k.best);
      assert t[|t| - 1] == step;
      if k.best.Some? {
        var j :| 0 <= j < |k.saved| && k.saved[j] == k.best.value;
        assert dirs[j] == k.best.value;
        assert t[if j < i then j else j - 1] == k.best.value;
      }
    } else {
      assert t == dirs;
    }
  }

  /** With a limit of at least two, after any sequence of saves of distinct steps the list holds the last
      ones saved, or the directory that was best before this save followed by the last ones but one;
      the best is retained, and exactly what is not retained has been deleted. */
  lemma {:induction false} Retention(maxKeep: nat, loss: bool, saves: seq<Save>)
    requires 2 <= maxKeep
    ensures var k := Run(maxKeep, loss, saves);
            BestKept(k) && Recent(Steps(saves), maxKeep, k.saved) && Accounted(Steps(saves), k)
    ensures saves != [] && Run(maxKeep, loss, saves).saved != Last(Steps(saves), maxKeep) ==>
              var before := Run(maxKeep, loss, Front(saves)).best;
              before.Some? && Run(maxKeep, loss, saves).saved == [before.value] + Last(Steps(saves), maxKeep - 1)
  {
    hide Trim, Last, Recent, Accounted, Steps, BestKept;
    if saves == [] {
      NothingSaved(maxKeep);
    } else {
      var k, save := Run(maxKeep, loss, Front(saves)), saves[|saves| - 1];
      var steps := Steps(Front(saves));
      Retention(maxKeep, loss, Front(saves));
      StepsAppend(saves);
      RecentSize(maxKeep, steps, k.saved);
      TrimRecent(maxKeep, k, steps, save.step);
      TrimKeepsBest(maxKeep, k, save.step);
      TrimAccounts(maxKeep, k, steps, save.step);
      RescoreKeeps(maxKeep, loss, Trim(maxKeep, k, save.step), save, steps + [save.step]);
    }
  }

  lemma NothingSaved(maxKeep: nat)
    ensures BestKept(FRESH) && Recent(Steps([]), maxKeep, FRESH.saved) && Accounted(Steps([]), FRESH)
  {
  }

  lemma StepsAppend(saves: seq<Save>)
    requires saves != []
    ensures Steps(saves) == Steps(Front(saves)) + [saves[|saves| - 1].step]
  {
  }

  lemma RecentSize(maxKeep: nat, steps: seq<nat>, saved: seq<nat>)
    requires 0 < maxKeep && Recent(steps, maxKeep, saved)
    ensures |saved| <= maxKeep && (|steps| >= maxKeep ==> saved != [])
  {
  }

  lemma RescoreKeeps(maxKeep: nat, loss: bool, k: Keeper, save: Save, steps: seq<nat>)
    requires BestKept(k) && save.step in k.saved && Accounted(steps, k)
    ensures var r := Rescore(loss, k, save);
            BestKept(r) && r.saved == k.saved && r.deleted == k.deleted && Accounted(steps, r)
  {
  }

  // ---------- what best means ----------

  predicate Scored(saves: seq<Save>, i: int) {
    0 <= i < |saves| && saves[i].score.Some?
  }

  /** The first of the saves with the best score. */
  ghost predicate IsFirstBest(loss: bool, saves: seq<Save>, i: int) {
    && Scored(saves, i)
    && (forall j :: Scored(saves, j) ==> !Improves(loss, saves[j].score.value, saves[i].score))
    && (forall j :: Scored(saves, j) && j < i ==> Improves(loss, saves[i].score.value, saves[j].score))
  }

  /** The recorded best is the first save with the best score; there is none before the first score. */
  lemma {:induction false} BestIsFirstBest(maxKeep: int, loss: bool, saves: seq<Save>)
    ensures var k := Run(maxKeep, loss, saves);
            && (k.best.None? <==> forall i :: !Scored(saves, i))
            && (k.best.Some? <==> k.score.Some?)
            && (k.best.Some? ==> exists i :: IsFirstBest(loss, saves, i) && saves[i] == Save(k.best.value, k.score))
  {
    if saves != [] {
      var front, n := Front(saves), |saves| - 1;
      BestIsFirstBest(maxKeep, loss, front);
      var before, k := Run(maxKeep, loss, front), Run(maxKeep, loss, saves);
      assert forall j :: 0 <= j < n ==> front[j] == saves[j];
      assert forall j :: Scored(front, j) <==> Scored(saves, j) && j < n;
      if before.best.Some? {
        var i :| IsFirstBest(loss, front, i) && front[i] == Save(before.best.value, before.score);
        assert saves[i] == front[i];
        if Scored(saves, n) && Improves(loss, saves[n].score.value, before.score) {
          assert forall j :: Scored(front, j) ==> !Improves(loss, front[j].score.value, front[i].score);
          assert IsFirstBest(loss, saves, n);
        } else {
          assert IsFirstBest(loss, saves, i);
        }
      } else if Scored(saves, n) {
        assert IsFirstBest(loss, saves, n);
      }
    }
  }

  // ---------- exactly which limits keep the best ----------

  ghost predicate AlwaysKeepsBest(maxKeep: int, loss: bool) {
    forall saves :: DistinctSteps(saves) ==> BestKept(Run(maxKeep, loss, saves))
  }

  lemma {:induction false} UnlimitedKeepsAll(loss: bool, saves: seq<Save>)
    ensures var k := Run(-1, loss, saves);
            k.saved == Steps(saves) && k.deleted == [] && BestKept(k)
  {
    if saves != [] {
      UnlimitedKeepsAll(loss, Front(saves));
      assert Steps(saves) == Steps(Front(saves)) + [saves[|saves| - 1].step];
    }
  }

  lemma RunOne(maxKeep: int, loss: bool, a: Save)
    ensures Run(maxKeep, loss, [a]) == AfterSave(maxKeep, loss, FRESH, a)
  {
    assert Front([a]) == [];
  }

  lemma RunTwo(maxKeep: int, loss: bool, a: Save, b: Save)
    ensures Run(maxKeep, loss, [a, b]) == AfterSave(maxKeep, loss, AfterSave(maxKeep, loss, FRESH, a), b)
  {
    RunOne(maxKeep, loss, a);
    assert Front([a, b]) == [a];
  }

  lemma SecondSave(loss: bool, score: real)
    requires if loss then score < 0.0 else score > 0.0
    ensures AfterSave(1, loss, Keeper([0], Some(0), Some(0.0), []), Save(1, Some(score))) ==
            Keeper([0], Some(1), Some(score), [1])
  {
    var k := Keeper([0], Some(0), Some(0.0), []);
    var dirs: seq<nat> := [0] + [1];
    assert dirs[..1] + dirs[2..] == [0];
    assert Trim(1, k, 1) == Keeper([0], Some(0), Some(0.0), [1]);
  }

  lemma FirstSave(loss: bool)
    ensures AfterSave(1, loss, FRESH, Save(0, Some(0.0))) == Keeper([0], Some(0), Some(0.0), [])
  {
    assert FRESH.saved + [0] == [0];
  }

  lemma OneLosesBest(loss: bool) returns (saves: seq<Save>)
    ensures DistinctSteps(saves) && !BestKept(Run(1, loss, saves))
  {
    hide AfterSave, Trim;
    var score := if loss then -1.0 else 1.0;
    var a, b := Save(0, Some(0.0)), Save(1, Some(score));
    saves := [a, b];
    RunTwo(1, loss, a, b);
    FirstSave(loss);
    SecondSave(loss, score);
  }

  lemma NoneLosesBest(maxKeep: int, loss: bool) returns (saves: seq<Save>)
    requires maxKeep <= 0 && maxKeep != -1
    ensures DistinctSteps(saves) && !BestKept(Run(maxKeep, loss, saves))
  {
    var a := Save(0, Some(0.0));
    saves := [a];
    RunOne(maxKeep, loss, a);
    assert [0][..0] + [0][1..] == [];
    assert AfterSave(maxKeep, loss, FRESH, a) == Keeper([], Some(0), Some(0.0), [0]);
  }

  /** The best checkpoint survives every run exactly with no limit (-1) or a limit of at least two. */
  lemma KeepsBestIff(maxKeep: int, loss: bool)
    ensures AlwaysKeepsBest(maxKeep, loss) <==> maxKeep == -1 || 2 <= maxKeep
  {
    hide Run, BestKept, DistinctSteps;
    if maxKeep == -1 {
      forall saves | DistinctSteps(saves)
        ensures BestKept(Run(maxKeep, loss, saves))
      {
        UnlimitedKeepsAll(loss, saves);
      }
    } else if 2 <= maxKeep {
      forall saves | DistinctSteps(saves)
        ensures BestKept(Run(maxKeep, loss, saves))
      {
        Retention(maxKeep, loss, saves);
      }
    } else if maxKeep == 1 {
      var saves := OneLosesBest(loss);
    } else {
      var saves := NoneLosesBest(maxKeep, loss);
    }
  }

  /** The current best followed by the last ones but one. */
  predicate BestThenRecent(steps: seq<nat>, maxKeep: nat, k: Keeper) {
    k.best.Some? && k.saved == [k.best.value] + Last(steps, maxKeep - 1)
  }

  /** A save that will take over as the best when the old best, the oldest in a full list, is to be spared. */
  predicate SparesInVain(maxKeep: nat, loss: bool, count: nat, before: Keeper, save: Save) {
    && save.score.Some? && Improves(loss, save.score.value, before.score)
    && count >= maxKeep && before.saved != [] && before.best == Some(before.saved[0])
  }

  /** After a save the list is the last ones saved, or the current best followed by the last ones but one,
      except exactly when the save spares the old best in vain. */
  lemma ShapeIff(maxKeep: nat, loss: bool, saves: seq<Save>, save: Save)
    requires 2 <= maxKeep && DistinctSteps(saves + [save])
    ensures var k, before := Run(maxKeep, loss, saves + [save]), Run(maxKeep, loss, saves);
            var steps := Steps(saves + [save]);
            (k.saved == Last(steps, maxKeep) || BestThenRecent(steps, maxKeep, k)) <==>
            !SparesInVain(maxKeep, loss, |saves|, before, save)
  {
    hide Trim, Last, Recent, Steps, DistinctSteps, Improves;
    var all := saves + [save];
    assert Front(all) == saves && all[|all| - 1] == save;
    var k, before := Run(maxKeep, loss, all), Run(maxKeep, loss, saves);
    var steps, front := Steps(all), Steps(saves);
    Retention(maxKeep, loss, saves);
    StepsAppend(all);
    StepsLength(all);
    RecentSize(maxKeep, front, before.saved);
    TrimRecent(maxKeep, before, front, save.step);
    if |front| >= maxKeep && before.best == Some(before.saved[0]) {
      OldestApart(maxKeep, all, before.saved);
      var tail := Last(steps, maxKeep - 1);
      assert k.saved == [before.saved[0]] + tail;
      if SparesInVain(maxKeep, loss, |saves|, before, save) {
        assert k.best == Some(save.step) && ([save.step] + tail)[0] != k.saved[0];
      }
    }
  }

  /** Three saves, the first better than the second and the third better than both, with room for two: the
      first is spared, the second deleted, and the list is neither of the two shapes. */
  lemma SparedInVain(loss: bool) returns (saves: seq<Save>, save: Save)
    ensures DistinctSteps(saves + [save]) && SparesInVain(2, loss, |saves|, Run(2, loss, saves), save)
    ensures var k := Run(2, loss, saves + [save]);
            && k.saved == [0, 2] && k.best == Some(2)
            && k.saved != Last(Steps(saves + [save]), 2) && !BestThenRecent(Steps(saves + [save]), 2, k)
  {
    var better := if loss then -1.0 else 1.0;
    var a, b := Save(0, Some(0.0)), Save(1, Some(-better));
    saves, save := [a, b], Save(2, Some(better));
    RunTwo(2, loss, a, b);
    assert FRESH.saved + [0] == [0] && [0] + [1] == [0, 1];
    assert Run(2, loss, saves) == Keeper([0, 1], Some(0), Some(0.0), []);
    assert Front(saves + [save]) == saves;
    assert ([0, 1] + [2])[..1] + ([0, 1] + [2])[2..] == [0, 2];
    assert Steps(saves + [save]) == [0, 1, 2];
  }

  lemma StepsLength(saves: seq<Save>)
    requires saves != []
    ensures |Steps(saves)| == |saves| && |Steps(Front(saves))| == |saves| - 1
  {
  }

  /** The oldest of a full list is neither among the last ones after the next save, nor the new one. */
  lemma OldestApart(maxKeep: nat, saves: seq<Save>, saved: seq<nat>)
    requires 2 <= maxKeep < |saves| && DistinctSteps(saves) && Recent(Steps(Front(saves)), maxKeep, saved)
    ensures saved != [] && saved[0] != saves[|saves| - 1].step
    ensures [saved[0]] + Last(Steps(saves), maxKeep - 1) != Last(Steps(saves), maxKeep)
  {
    var steps := Steps(saves);
    var i := FullList(maxKeep, Steps(Front(saves)), saved);
    LastSplit(steps, maxKeep);
    StepsApart(saves, i, |saves| - maxKeep);
    StepsApart(saves, i, |saves| - 1);
  }

  lemma StepsApart(saves: seq<Save>, i: nat, j: nat)
    requires DistinctSteps(saves) && i < j < |saves|
    ensures saves[i].step != saves[j].step
  {
  }
}
