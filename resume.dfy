/**
  The resume wrapper (`ResumeTrainer`) around a generic trainer that always
  counts its epochs from 0. For a run resumed at `currentEpoch` it runs only
  the remaining epochs and relabels every checkpoint the trainer saves with
  the absolute epoch number, then puts the trainer back as it found it.

  The wrapper replaces the trainer's `save_checkpoint` attribute with a
  closure that calls the previous one. Here that attribute is the value of
  `Trainer.saveCheckpoint`, a `SaveFn`: the trainer's own method, or an
  offsetting wrapper around a previous `SaveFn`.
 */
module Resume {
  import opened Wrappers
  import opened Paths

  /** One checkpoint written by the trainer's own `save_checkpoint`: where, and the epoch recorded in it. */
  datatype Save = Save(path: string, epoch: Option<int>)

  /** What the trainer's `save_checkpoint` attribute currently is. */
  datatype SaveFn =
    | Original                          // the trainer's own method: writes the checkpoint as asked
    | Adjusted(offset: int, next: SaveFn) // `adjusted_save_checkpoint`, forwarding to `next`

  /** The sum of the offsets the chain of wrappers adds to an epoch. */
  function TotalOffset(f: SaveFn): int {
    match f
    case Original => 0
    case Adjusted(offset, next) => offset + TotalOffset(next)
  }

  /** The epoch shifted by `offset`; `None` stays `None`. */
  function Shift(epoch: Option<int>, offset: int): (r: Option<int>)
    ensures r.Some? <==> epoch.Some?
    ensures r.Some? ==> r.value == epoch.value + offset
  {
    if epoch.Some? then Some(epoch.value + offset) else None
  }

  /** Shifting twice is shifting once by the sum, which is how nested wrappers add up their offsets. */
  lemma ShiftCompose(epoch: Option<int>, a: int, b: int)
    ensures Shift(Shift(epoch, a), b) == Shift(epoch, a + b)
    ensures Shift(epoch, 0) == epoch
  {
  }

  /**
    The checkpoint a call `save_checkpoint(path, epoch)` finally writes, when
    the attribute is `f` and the trainer's `output_dir` is `outputDir`. Every
    wrapper adds its offset to a present epoch and, when the output directory
    is set, renames the file after the shifted epoch; an absent epoch passes
    through with the caller's path.
   */
  function Route(f: SaveFn, outputDir: string, path: string, epoch: Option<int>): (s: Save)
    ensures epoch.None? ==> s == Save(path, None)
    ensures epoch.Some? ==> s.epoch == Some(epoch.value + TotalOffset(f))
    ensures epoch.Some? && f.Adjusted? && outputDir != "" ==>
              s.path == Join(outputDir, CheckpointName(epoch.value + TotalOffset(f)))
    ensures epoch.Some? && (f.Original? || outputDir == "") ==> s.path == path
    decreases f
  {
    match f
    case Original => Save(path, epoch)
    case Adjusted(offset, next) =>
      var adjusted := Shift(epoch, offset);
      var renamed := if epoch.Some? && outputDir != "" then Join(outputDir, CheckpointName(adjusted.value)) else path;
      Route(next, outputDir, renamed, adjusted)
  }

  /**
    A wrapper installed over an earlier wrapper writes the same checkpoint as
    one wrapper with the summed offset: the inner rename overrides the outer.
   */
  lemma NestedWrappersCompose(a: int, b: int, outputDir: string, path: string, epoch: Option<int>)
    ensures Route(Adjusted(a, Adjusted(b, Original)), outputDir, path, epoch)
            == Route(Adjusted(a + b, Original), outputDir, path, epoch)
  {
    ShiftCompose(epoch, a, b);
  }

  /** The checkpoints a trainer writes when its loop saves once per epoch `0 .. n - 1`. */
  function EpochSaves(f: SaveFn, outputDir: string, proposed: int -> string, n: nat): (saves: seq<Save>)
    ensures |saves| == n
    ensures forall i :: 0 <= i < n ==> saves[i] == Route(f, outputDir, proposed(i), Some(i))
  {
    seq(n, i requires 0 <= i < n => Route(f, outputDir, proposed(i), Some(i)))
  }

  /** One more epoch appends its checkpoint to those of the earlier epochs. */
  lemma EpochSavesExtend(f: SaveFn, outputDir: string, proposed: int -> string, n: nat)
    ensures EpochSaves(f, outputDir, proposed, n + 1)
            == EpochSaves(f, outputDir, proposed, n) + [Route(f, outputDir, proposed(n), Some(n))]
  {
    var longer := EpochSaves(f, outputDir, proposed, n + 1);
    var shorter := EpochSaves(f, outputDir, proposed, n);
    assert forall i :: 0 <= i < n ==> longer[i] == shorter[i];
  }

  /** The result the trainer reports. */
  datatype TrainResult = TrainResult(finalLoss: real, trainingTime: real)

  /** The result the wrapper returns when no epochs remain. */
  const NoWork: TrainResult := TrainResult(0.0, 0.0)

  /**
    The generic trainer, as far as the wrapper sees it: its epoch count, its
    output directory, its `save_checkpoint` attribute, and an epoch loop.
    `proposed(i)` is the path its loop asks to save epoch `i` at and
    `reported` the result it returns; the ghost logs record every checkpoint
    written and every call of `Train`.
   */
  class Trainer {
    var numEpochs: int
    var outputDir: string
    var saveCheckpoint: SaveFn
    const proposed: int -> string
    const reported: TrainResult
    ghost var saves: seq<Save>
    ghost var runs: seq<int>

    constructor (numEpochs: int, outputDir: string, proposed: int -> string, reported: TrainResult)
      ensures this.numEpochs == numEpochs && this.outputDir == outputDir
      ensures saveCheckpoint == Original
      ensures this.proposed == proposed && this.reported == reported
      ensures saves == [] && runs == []
    {
      this.numEpochs := numEpochs;
      this.outputDir := outputDir;
      this.proposed := proposed;
      this.reported := reported;
      saveCheckpoint := Original;
      saves := [];
      runs := [];
    }

    /** `self.save_checkpoint(path, epoch)`: a call through the current attribute. */
    method SaveCheckpoint(path: string, epoch: Option<int>)
      modifies this`saves
      ensures saves == old(saves) + [Route(saveCheckpoint, outputDir, path, epoch)]
    {
      saves := saves + [Route(saveCheckpoint, outputDir, path, epoch)];
    }

    /** `train()`: one save per epoch `0 .. numEpochs - 1`, then the reported result. */
    method Train() returns (result: TrainResult)
      modifies this`saves, this`runs
      ensures runs == old(runs) + [numEpochs]
      ensures saves == old(saves) + EpochSaves(saveCheckpoint, outputDir, proposed,
                                               if numEpochs > 0 then numEpochs else 0)
      ensures result == reported
    {
      runs := runs + [numEpochs];
      var epoch := 0;
      while epoch < numEpochs
        invariant 0 <= epoch <= if numEpochs > 0 then numEpochs else 0
        invariant runs == old(runs) + [numEpochs]
        invariant saves == old(saves) + EpochSaves(saveCheckpoint, outputDir, proposed, epoch)
      {
        SaveCheckpoint(proposed(epoch), Some(epoch));
        EpochSavesExtend(saveCheckpoint, outputDir, proposed, epoch);
        epoch := epoch + 1;
      }
      result := reported;
    }
  }

  /** The epochs still to run: `num_epochs - current_epoch`, possibly zero or negative. */
  function Remaining(numEpochs: int, currentEpoch: int): int {
    numEpochs - currentEpoch
  }

  /** `ResumeTrainer(trainer, start_epoch)`. */
  class ResumeTrainer {
    const trainer: Trainer
    const currentEpoch: int

    constructor (trainer: Trainer, startEpoch: int)
      ensures this.trainer == trainer && currentEpoch == startEpoch
    {
      this.trainer := trainer;
      currentEpoch := startEpoch;
    }

    /**
      `train()`. With no epochs remaining it returns the zero result and
      leaves the trainer alone. Otherwise the trainer runs once, for the
      remaining epochs, through an offsetting `save_checkpoint`; its epoch
      count and `save_checkpoint` are then restored and its result returned.
     */
    method Train() returns (result: TrainResult)
      modifies trainer
      ensures trainer.numEpochs == old(trainer.numEpochs)
      ensures trainer.saveCheckpoint == old(trainer.saveCheckpoint)
      ensures trainer.outputDir == old(trainer.outputDir)
      ensures Remaining(old(trainer.numEpochs), currentEpoch) <= 0 ==>
                result == NoWork && trainer.runs == old(trainer.runs) && trainer.saves == old(trainer.saves)
      ensures Remaining(old(trainer.numEpochs), currentEpoch) > 0 ==>
                && result == trainer.reported
                && trainer.runs == old(trainer.runs) + [Remaining(old(trainer.numEpochs), currentEpoch)]
                && trainer.saves == old(trainer.saves)
                   + EpochSaves(Adjusted(currentEpoch, old(trainer.saveCheckpoint)), trainer.outputDir,
                                trainer.proposed, Remaining(old(trainer.numEpochs), currentEpoch))
    {
      var originalNumEpochs := trainer.numEpochs;
      var remainingEpochs := originalNumEpochs - currentEpoch;
      if remainingEpochs <= 0 {
        return NoWork;
      }
      trainer.numEpochs := remainingEpochs;
      var originalSaveCheckpoint := trainer.saveCheckpoint;
      trainer.saveCheckpoint := Adjusted(currentEpoch, originalSaveCheckpoint);
      result := trainer.Train();
      trainer.numEpochs := originalNumEpochs;
      trainer.saveCheckpoint := originalSaveCheckpoint;
    }
  }

  /**
    What a resumed run writes when the trainer saves directly: for inner epoch
    `k` the checkpoint records epoch `start + k` and, when an output directory
    is set, is named after it; the numbering runs on from `start` to the last
    configured epoch.
   */
  lemma ResumedSaves(start: int, total: int, outputDir: string, proposed: int -> string)
    requires Remaining(total, start) > 0
    ensures var saves := EpochSaves(Adjusted(start, Original), outputDir, proposed, Remaining(total, start));
            && |saves| == total - start
            && (forall k :: 0 <= k < |saves| ==> saves[k].epoch == Some(start + k))
            && (forall k :: 0 <= k < |saves| ==>
                  saves[k].path == if outputDir != "" then Join(outputDir, CheckpointName(start + k))
                                   else proposed(k))
            && saves[|saves| - 1].epoch == Some(total - 1)
  {
    var saves := EpochSaves(Adjusted(start, Original), outputDir, proposed, Remaining(total, start));
    forall k | 0 <= k < |saves|
      ensures saves[k].epoch == Some(start + k)
      ensures saves[k].path == if outputDir != "" then Join(outputDir, CheckpointName(start + k))
                               else proposed(k)
    {
      AdjustedRoute(start, outputDir, proposed(k), k);
    }
  }

  /** The checkpoint one offsetting wrapper over the trainer's own method writes for inner epoch `k`. */
  function AdjustedSave(start: int, outputDir: string, path: string, k: int): Save {
    Save(if outputDir != "" then Join(outputDir, CheckpointName(start + k)) else path, Some(start + k))
  }

  lemma AdjustedRoute(start: int, outputDir: string, path: string, k: int)
    ensures Route(Adjusted(start, Original), outputDir, path, Some(k)) == AdjustedSave(start, outputDir, path, k)
  {
    assert TotalOffset(Adjusted(start, Original)) == start;
  }

  /** With an output directory, no two checkpoints of one resumed run share a file. */
  lemma ResumedSavesDistinctFiles(start: int, total: int, outputDir: string, proposed: int -> string,
                                  i: int, j: int)
    requires Remaining(total, start) > 0 && outputDir != ""
    requires 0 <= i < j < Remaining(total, start)
    ensures var saves := EpochSaves(Adjusted(start, Original), outputDir, proposed, Remaining(total, start));
            saves[i].path != saves[j].path
  {
    var saves := EpochSaves(Adjusted(start, Original), outputDir, proposed, Remaining(total, start));
    AdjustedRoute(start, outputDir, proposed(i), i);
    AdjustedRoute(start, outputDir, proposed(j), j);
    AdjustedSavesApart(start, outputDir, proposed(i), proposed(j), i, j);
  }

  lemma AdjustedSavesApart(start: int, outputDir: string, p: string, q: string, i: int, j: int)
    requires outputDir != "" && i != j
    ensures AdjustedSave(start, outputDir, p, i).path != AdjustedSave(start, outputDir, q, j).path
  {
    var x := Join(outputDir, CheckpointName(start + i));
    var y := Join(outputDir, CheckpointName(start + j));
    CheckpointPathsDistinct(outputDir, start + i, start + j);
    assert AdjustedSave(start, outputDir, p, i) == Save(x, Some(start + i));
    assert AdjustedSave(start, outputDir, q, j) == Save(y, Some(start + j));
  }

  /** The example of a run resumed at epoch 3 with 5 epochs configured, for any output directory. */
  lemma ResumeExample(outputDir: string, proposed: int -> string)
    requires outputDir != ""
    ensures EpochSaves(Adjusted(3, Original), outputDir, proposed, Remaining(5, 3))
              == [Save(Join(outputDir, "checkpoint_epoch_3.pt"), Some(3)),
                  Save(Join(outputDir, "checkpoint_epoch_4.pt"), Some(4))]
  {
    var saves := EpochSaves(Adjusted(3, Original), outputDir, proposed, Remaining(5, 3));
    CheckpointNameExamples();
    assert saves[0] == Save(Join(outputDir, CheckpointName(3)), Some(3));
    assert saves[1] == Save(Join(outputDir, CheckpointName(4)), Some(4));
  }

  /**
    The whole wrapper on a fresh 5-epoch trainer: resumed at 3, the trainer
    runs once, for 2 epochs, writing the checkpoints of epochs 3 and 4, and
    is restored afterwards; resumed again at 5, nothing runs.
   */
  method ResumeExampleRun(proposed: int -> string) returns (t: Trainer, first: TrainResult, second: TrainResult)
    ensures t.runs == [2]
    ensures t.saves == [Save(Join("out", "checkpoint_epoch_3.pt"), Some(3)),
                        Save(Join("out", "checkpoint_epoch_4.pt"), Some(4))]
    ensures t.numEpochs == 5 && t.saveCheckpoint == Original
    ensures first == TrainResult(1.5, 20.0) && second == NoWork
  {
    t := new Trainer(5, "out", proposed, TrainResult(1.5, 20.0));
    var w := new ResumeTrainer(t, 3);
    first := w.Train();
    ResumeExample("out", proposed);
    var again := new ResumeTrainer(t, 5);
    second := again.Train();
  }
}
