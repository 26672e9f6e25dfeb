/**
 * The bookkeeping of train2.py: the early-stopping loop of `main` and the
 * per-sample filter and dictionary merge of `get_result_print`. Training,
 * evaluation, logging and file writes are outside the model; the evaluation
 * loss of every epoch is an input.
 */
module Training {
  import opened Wrappers
  import Criterion

  // ---------------------------------------------------------------------
  // Early stopping (lines 118-151)
  // ---------------------------------------------------------------------

  /** The loop stops at a non-improving epoch once `stop_count > 5`. */
  const PATIENCE: nat := 5

  /** `best_perform`: `float('inf')` until a loss has been seen. */
  datatype Extended = PosInf | Fin(value: real)

  /** `eval_loss < best_perform`. */
  predicate Below(x: real, e: Extended) {
    e.PosInf? || x < e.value
  }

  /** `best_perform` after the first `k` epochs. */
  function Best(losses: seq<real>, k: nat): Extended
    requires k <= |losses|
  {
    if k == 0 then PosInf
    else if Below(losses[k - 1], Best(losses, k - 1)) then Fin(losses[k - 1])
    else Best(losses, k - 1)
  }

  /** Epoch `k + 1` (whose loss is `losses[k]`) improves on the best so far. */
  predicate Improves(losses: seq<real>, k: nat)
    requires k < |losses|
  {
    Below(losses[k], Best(losses, k))
  }

  /** The number of non-improving epochs in a row at the end of the first `k`. */
  function Streak(losses: seq<real>, k: nat): nat
    requires k <= |losses|
  {
    if k == 0 then 0
    else if Improves(losses, k - 1) then 0
    else Streak(losses, k - 1) + 1
  }

  /** The best loss is the smallest loss seen so far, and it is infinite
      exactly before the first epoch. */
  lemma {:induction false} BestIsMinimum(losses: seq<real>, k: nat)
    requires k <= |losses|
    ensures Best(losses, k).PosInf? <==> k == 0
    ensures k > 0 ==> exists j :: 0 <= j < k && Best(losses, k) == Fin(losses[j])
    ensures k > 0 ==> forall i :: 0 <= i < k ==> Best(losses, k).value <= losses[i]
  {
    if k > 0 {
      BestIsMinimum(losses, k - 1);
      if Below(losses[k - 1], Best(losses, k - 1)) {
        assert Best(losses, k) == Fin(losses[k - 1]);
      } else {
        var j :| 0 <= j < k - 1 && Best(losses, k - 1) == Fin(losses[j]);
        assert Best(losses, k) == Fin(losses[j]);
      }
    }
  }

  /** An epoch improves exactly when its loss is strictly below every earlier
      loss; in particular the first epoch always improves, and an epoch that
      only equals the best does not. */
  lemma ImprovesIff(losses: seq<real>, k: nat)
    requires k < |losses|
    ensures Improves(losses, k) <==> forall i :: 0 <= i < k ==> losses[k] < losses[i]
  {
    BestIsMinimum(losses, k);
    if k > 0 && !Improves(losses, k) {
      var j :| 0 <= j < k && Best(losses, k) == Fin(losses[j]);
      assert !(losses[k] < losses[j]);
    }
  }

  /** `best_perform` never goes up. */
  lemma {:induction false} BestNeverIncreases(losses: seq<real>, j: nat, k: nat)
    requires 0 < j <= k <= |losses|
    ensures Best(losses, k).Fin? && Best(losses, j).Fin? && Best(losses, k).value <= Best(losses, j).value
  {
    BestIsMinimum(losses, j);
    if j < k {
      BestNeverIncreases(losses, j, k - 1);
      BestIsMinimum(losses, k);
    }
  }

  /** The first epoch always improves, so a streak is shorter than the run. */
  lemma {:induction false} StreakBound(losses: seq<real>, k: nat)
    requires 0 < k <= |losses|
    ensures Streak(losses, k) <= k - 1
  {
    if k > 1 {
      StreakBound(losses, k - 1);
    }
  }

  /** Files `model.epoch_{e}_p.pth` present after the first `k` epochs, as
      written: an improving epoch `e` saves its file and removes the file of
      epoch `e - 1` (assuming none was present before the run). */
  function SavedAsWritten(losses: seq<real>, k: nat): set<int>
    requires k <= |losses|
  {
    if k == 0 then {}
    else if Improves(losses, k - 1) then SavedAsWritten(losses, k - 1) + {k} - {k - 1}
    else SavedAsWritten(losses, k - 1)
  }

  /** The epoch whose loss is `best_perform` after the first `k` epochs. */
  function BestEpoch(losses: seq<real>, k: nat): (e: nat)
    requires 0 < k <= |losses|
    ensures 1 <= e <= k && Best(losses, k) == Fin(losses[e - 1])
  {
    if k == 1 || Improves(losses, k - 1) then k else BestEpoch(losses, k - 1)
  }

  /** The checkpoint of the best epoch is always on disk. */
  lemma {:induction false} BestCheckpointSaved(losses: seq<real>, k: nat)
    requires 0 < k <= |losses|
    ensures BestEpoch(losses, k) in SavedAsWritten(losses, k)
  {
    if k > 1 && !Improves(losses, k - 1) {
      BestCheckpointSaved(losses, k - 1);
    }
  }

  /** As written, a checkpoint of an earlier best survives when the next
      improvement is not in the very next epoch: with losses 1.0, 2.0, 0.5
      the files of epochs 1 and 3 are both kept. */
  lemma StaleCheckpointKept()
    ensures SavedAsWritten([1.0, 2.0, 0.5], 3) == {1, 3}
  {
    var losses := [1.0, 2.0, 0.5];
    assert Improves(losses, 0);
    assert Best(losses, 1) == Fin(1.0);
    assert !Improves(losses, 1);
    assert Best(losses, 2) == Fin(1.0);
    assert Improves(losses, 2);
    assert SavedAsWritten(losses, 1) == {1};
    assert SavedAsWritten(losses, 2) == {1};
  }

  /** The evidently intended bookkeeping: an improving epoch replaces the
      previous best checkpoint, whatever its epoch. */
  function SavedKeepingBest(losses: seq<real>, k: nat): set<int>
    requires k <= |losses|
  {
    if k == 0 then {}
    else if Improves(losses, k - 1) then {k}
    else SavedKeepingBest(losses, k - 1)
  }

  /** With the intended bookkeeping exactly one checkpoint is on disk: the best epoch's. */
  lemma {:induction false} SavedKeepingBestIsBest(losses: seq<real>, k: nat)
    requires 0 < k <= |losses|
    ensures SavedKeepingBest(losses, k) == {BestEpoch(losses, k)}
  {
    if k > 1 && !Improves(losses, k - 1) {
      SavedKeepingBestIsBest(losses, k - 1);
    } else if k == 1 {
      assert Improves(losses, 0);
    }
  }

  /** The outcome of the epoch loop. */
  datatype Outcome = Outcome(best: Extended, stopCount: nat, lastEpoch: int, epochsRun: nat, stopped: bool, saved: set<int>)

  /** The epoch loop of `main`; `evalLoss[e - 1]` is the evaluation loss of
      epoch `e`. It runs until `n_epochs` epochs are done or a non-improving
      epoch finds `stop_count > 5`, i.e. at the seventh non-improving epoch
      in a row; then `last_epoch` is that epoch. */
  method EarlyStopping(nEpochs: int, evalLoss: seq<real>) returns (o: Outcome)
    requires nEpochs <= |evalLoss|
    ensures o.epochsRun <= |evalLoss| && o.best == Best(evalLoss, o.epochsRun)
    ensures o.saved == SavedAsWritten(evalLoss, o.epochsRun)
    ensures o.stopCount <= PATIENCE + 1
    ensures forall k :: 0 <= k < o.epochsRun ==> Streak(evalLoss, k) <= PATIENCE + 1
    ensures o.stopped ==> o.epochsRun <= nEpochs && o.lastEpoch == o.epochsRun
    ensures o.stopped ==> Streak(evalLoss, o.epochsRun) == PATIENCE + 2 && o.stopCount == PATIENCE + 1
    ensures !o.stopped ==> o.epochsRun == (if nEpochs < 0 then 0 else nEpochs) && o.lastEpoch == nEpochs
    ensures !o.stopped ==> o.stopCount == Streak(evalLoss, o.epochsRun)
  {
    var best, stopCount, saved := PosInf, 0, {};
    var k: nat := 0;
    while k < nEpochs
      invariant k <= |evalLoss| && (nEpochs >= 0 ==> k <= nEpochs) && (nEpochs < 0 ==> k == 0)
      invariant best == Best(evalLoss, k) && saved == SavedAsWritten(evalLoss, k)
      invariant stopCount == Streak(evalLoss, k) && stopCount <= PATIENCE + 1
      invariant forall j :: 0 <= j <= k ==> Streak(evalLoss, j) <= PATIENCE + 1
    {
      var epoch := k + 1;
      if best.PosInf? || evalLoss[k] < best.value {
        best := Fin(evalLoss[k]);
        stopCount := 0;
        saved := saved + {epoch} - {epoch - 1};
      } else {
        if stopCount > PATIENCE {
          return Outcome(best, stopCount, epoch, epoch, true, saved);
        }
        stopCount := stopCount + 1;
      }
      k := k + 1;
    }
    o := Outcome(best, stopCount, nEpochs, k, false, saved);
  }

  /** A stopped run has done at least `PATIENCE + 3` epochs: one that
      improves and seven that do not. */
  lemma StopNeedsEightEpochs(losses: seq<real>, k: nat)
    requires 0 < k <= |losses| && Streak(losses, k) == PATIENCE + 2
    ensures k >= PATIENCE + 3
  {
    StreakBound(losses, k);
  }

  // ---------------------------------------------------------------------
  // get_result_print (lines 23-43)
  // ---------------------------------------------------------------------

  const BBOXES_KEY: string := "bboxes"

  /** `framework = {}; framework['bboxes'] = bboxes` followed by
      `framework.update` with every key of the base framework that is not
      yet present: `bboxes` holds the new entry and every other key of the
      base framework is copied. */
  function MergeFramework<V>(base: map<string, V>, entry: V): (f: map<string, V>)
    ensures f.Keys == base.Keys + {BBOXES_KEY}
    ensures f[BBOXES_KEY] == entry
    ensures forall key :: key in base && key != BBOXES_KEY ==> f[key] == base[key]
  {
    var framework := map[BBOXES_KEY := entry];
    framework + map key | key in base && key !in framework :: base[key]
  }

  /** `[scale(bbox, (1, 1), input_size) for bbox in box_cxcywh_to_xyxy(pred)]`,
      with `scaleBox` standing for the scaling. */
  function ScaledCorners(kept: seq<Criterion.CenterBox>, scaleBox: Criterion.CornerBox -> Criterion.CornerBox): (r: seq<Criterion.CornerBox>)
    ensures |r| == |kept| && forall i :: 0 <= i < |kept| ==> r[i] == scaleBox(Criterion.CenterToCorners(kept[i]))
  {
    var corners := Criterion.ToCorners(kept);
    seq(|corners|, i requires 0 <= i < |corners| => scaleBox(corners[i]))
  }

  /** The report of the first sample of a batch: the boxes of the positions
      its sequence mask keeps (`masked_select` broadcasts a mask or a box
      row of length 1 against the other), their corner form scaled back to the input
      size (`scaleBox` stands for `scale(bbox, (1, 1), input_size)` and
      `asEntry` for storing the list in the dictionary), and the framework:
      the sample's framework with `bboxes` set to those boxes and every other
      key copied. The source reads `name` and `labels` of the framework for
      its log lines, so both keys must be present. */
  method GetResultPrint<V>(pred: seq<seq<Criterion.CenterBox>>, bboxTrg: seq<seq<Criterion.CenterBox>>,
                           seqMask: seq<seq<bool>>, baseFramework: map<string, V>,
                           scaleBox: Criterion.CornerBox -> Criterion.CornerBox,
                           asEntry: seq<Criterion.CornerBox> -> V)
    returns (kept: seq<Criterion.CenterBox>, target: seq<Criterion.CenterBox>, framework: map<string, V>)
    requires |pred| > 0 && |bboxTrg| > 0 && |seqMask| > 0
    requires Criterion.Broadcasts(|pred[0]|, |seqMask[0]|) && Criterion.Broadcasts(|bboxTrg[0]|, |seqMask[0]|)
    requires "name" in baseFramework && "labels" in baseFramework
    ensures kept == Criterion.BroadcastSelect(pred[0], seqMask[0]) && target == Criterion.BroadcastSelect(bboxTrg[0], seqMask[0])
    ensures |pred[0]| == |seqMask[0]| ==> kept == Criterion.Select(pred[0], seqMask[0]) && |kept| == Criterion.Count(seqMask[0])
    ensures |bboxTrg[0]| == |seqMask[0]| ==> target == Criterion.Select(bboxTrg[0], seqMask[0]) && |target| == Criterion.Count(seqMask[0])
    ensures framework.Keys == baseFramework.Keys + {BBOXES_KEY}
    ensures framework[BBOXES_KEY] == asEntry(ScaledCorners(kept, scaleBox))
    ensures forall key :: key in baseFramework && key != BBOXES_KEY ==> framework[key] == baseFramework[key]
  {
    var mask := seqMask[0];
    var n, nTrg := Criterion.BroadcastLength(|pred[0]|, |mask|), Criterion.BroadcastLength(|bboxTrg[0]|, |mask|);
    kept := Criterion.MaskedRows(Criterion.Expand(pred[0], n), Criterion.Expand(mask, n));
    target := Criterion.MaskedRows(Criterion.Expand(bboxTrg[0], nTrg), Criterion.Expand(mask, nTrg));
    Criterion.BroadcastSelectCases(pred[0], mask);
    Criterion.BroadcastSelectCases(bboxTrg[0], mask);
    framework := MergeFramework(baseFramework, asEntry(ScaledCorners(kept, scaleBox)));
  }
}
