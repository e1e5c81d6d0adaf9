/**
  The epoch bookkeeping of one training session in `main`: the start epoch
  from the checkpoint loader goes to the resume wrapper, and after training
  the final model file records an epoch that a later resumption reads back.
 */
module Session {
  import opened Wrappers
  import opened Paths
  import opened Checkpoint
  import opened Resume

  /** A bundle that holds only an epoch, as far as the loader is concerned. */
  function EpochOnly(epoch: int): Bundle {
    map[EpochKey := IntValue(epoch)]
  }

  /** Loading a bundle that holds only an integer epoch resumes right after it. */
  lemma ResumeFromEpochOnly(path: string, epoch: int, modelAccepts: set<nat>, optimizerAccepts: set<nat>)
    requires path != ""
    ensures Restore(Some(path), true, Read(EpochOnly(epoch)), modelAccepts, optimizerAccepts)
              == Effect(epoch + 1, None, None)
  {
    var b := EpochOnly(epoch);
    assert ModelKey != EpochKey && OptimizerKey != EpochKey && LossKey != EpochKey;
    assert ModelKey !in b && OptimizerKey !in b && LossKey !in b;
  }

  /**
    The epoch the final model file records, as `main` writes it:
    `config.num_epochs`, the number of epochs rather than the index of the
    last one.
   */
  function FinalSaveEpochAsWritten(numEpochs: int): int {
    numEpochs
  }

  /**
    The epoch the final model file should record: the index of the last
    epoch trained, the same value the per-epoch checkpoint of that epoch
    records, so that resuming from either file continues at the same epoch.
   */
  function FinalSaveEpoch(numEpochs: int): int {
    numEpochs - 1
  }

  /**
    As written, resuming from the final model of a `total`-epoch session
    with a larger `later` total starts at `total + 1`: the resumed run labels
    none of its checkpoints `total`, and the first session stopped at
    `total - 1`, so epoch `total` is never trained. When `later` is
    `total + 1` no epoch remains and the resumed run trains nothing at all.
   */
  lemma FinalSaveAsWrittenSkipsAnEpoch(path: string, total: int, later: int, outputDir: string,
                                       proposed: int -> string)
    requires path != "" && 0 < total < later
    ensures var start := Restore(Some(path), true, Read(EpochOnly(FinalSaveEpochAsWritten(total))), {}, {}).startEpoch;
            && start == total + 1
            && Remaining(later, start) == later - total - 1
            && (later == total + 1 ==> Remaining(later, start) <= 0)
            && forall k :: 0 <= k < Remaining(later, start) ==>
                 EpochSaves(Adjusted(start, Original), outputDir, proposed, Remaining(later, start))[k].epoch
                   != Some(total)
  {
    ResumeFromEpochOnly(path, total, {}, {});
  }

  /** The smallest instance: 5 epochs, then resumed to 8, runs epochs 6 and 7 only. */
  lemma FinalSaveAsWrittenExample(outputDir: string, proposed: int -> string)
    ensures var start := Restore(Some("symbolic_model.pt"), true, Read(EpochOnly(FinalSaveEpochAsWritten(5))), {}, {}).startEpoch;
            && start == 6
            && Remaining(8, start) == 2
  {
    ResumeFromEpochOnly("symbolic_model.pt", 5, {}, {});
  }

  /**
    With the corrected epoch, resuming from the final model of a
    `total`-epoch session continues at exactly `total`: the resumed run
    labels its checkpoints `total .. later - 1`, right after the first
    session's `0 .. total - 1`, with no gap and no repetition.
   */
  lemma FinalSaveResumesAtNextEpoch(path: string, total: int, later: int, outputDir: string,
                                    proposed: int -> string)
    requires path != "" && 0 < total < later
    ensures var start := Restore(Some(path), true, Read(EpochOnly(FinalSaveEpoch(total))), {}, {}).startEpoch;
            && start == total
            && var saves := EpochSaves(Adjusted(start, Original), outputDir, proposed, Remaining(later, start));
               && |saves| == later - total
               && forall k :: 0 <= k < |saves| ==> saves[k].epoch == Some(total + k)
  {
    ResumeFromEpochOnly(path, total - 1, {}, {});
    ResumedSaves(total, later, outputDir, proposed);
  }

  /**
    Resuming from the checkpoint the wrapper wrote for absolute epoch `e`
    (epoch field `e`) continues at `e + 1`: the first checkpoint of the new
    run is labelled `e + 1`.
   */
  lemma ResumeAfterEpochCheckpoint(path: string, e: int, total: int, outputDir: string,
                                   proposed: int -> string)
    requires path != "" && e + 1 < total
    ensures var start := Restore(Some(path), true, Read(EpochOnly(e)), {}, {}).startEpoch;
            && start == e + 1
            && EpochSaves(Adjusted(start, Original), outputDir, proposed, Remaining(total, start))[0].epoch
                 == Some(e + 1)
  {
    ResumeFromEpochOnly(path, e, {}, {});
  }

  /**
    Lines 661-705 of `main`: load the checkpoint, wrap the trainer with the
    start epoch it gives, train, and return the result with the epoch the
    final model file records as written, `config.num_epochs`.
   */
  method TrainWithResumption(path: Option<string>, found: bool, read: ReadOutcome,
                             model: StateHolder, optimizer: StateHolder, trainer: Trainer)
    returns (result: TrainResult, finalEpoch: int)
    requires model != optimizer
    requires trainer.saveCheckpoint == Original
    modifies model, optimizer, trainer
    ensures var e := Restore(path, found, read, model.accepts, optimizer.accepts);
            && model.state == e.modelState.GetOr(old(model.state))
            && optimizer.state == e.optimizerState.GetOr(old(optimizer.state))
            && trainer.numEpochs == old(trainer.numEpochs)
            && trainer.saveCheckpoint == Original
            && trainer.outputDir == old(trainer.outputDir)
            && finalEpoch == FinalSaveEpochAsWritten(old(trainer.numEpochs))
            && (Remaining(old(trainer.numEpochs), e.startEpoch) <= 0 ==>
                  result == NoWork && trainer.runs == old(trainer.runs) && trainer.saves == old(trainer.saves))
            && (Remaining(old(trainer.numEpochs), e.startEpoch) > 0 ==>
                  && result == trainer.reported
                  && trainer.runs == old(trainer.runs) + [Remaining(old(trainer.numEpochs), e.startEpoch)]
                  && trainer.saves == old(trainer.saves)
                     + EpochSaves(Adjusted(e.startEpoch, Original), trainer.outputDir, trainer.proposed,
                                  Remaining(old(trainer.numEpochs), e.startEpoch)))
  {
    var startEpoch := LoadCheckpointForResumption(path, found, read, model, optimizer);
    var resumeTrainer := new ResumeTrainer(trainer, startEpoch);
    result := resumeTrainer.Train();
    finalEpoch := FinalSaveEpochAsWritten(trainer.numEpochs);
  }
}
