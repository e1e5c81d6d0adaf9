# Symbolic-transformer training script: resumption, configuration and batching logic

This project models the decision logic of `examples/train_symbolic_example.py`, the script that
trains a symbolic transformer. It leaves out the tensors and the I/O and covers five parts:

- **Checkpoint loading** (`load_checkpoint_for_resumption`). The loader restores the model and
  optimizer state from a checkpoint bundle and returns the epoch to start from. This part has
  best-effort semantics: any exception inside its `try` block resets the start epoch to 0. State
  that was already installed stays installed.
- **The resume wrapper** (`ResumeTrainer`). It runs only the epochs still to go. While the inner
  trainer runs, its `save_checkpoint` is replaced by `adjusted_save_checkpoint`. That closure adds
  the start epoch to every epoch it is given. It renames the file `checkpoint_epoch_<n>.pt` only
  when an epoch is given and `output_dir` is non-empty; otherwise the caller's path is kept.
  Afterwards the trainer's epoch count and `save_checkpoint` are put back.
- **The consistency heuristic** (`analyze_symbolic_consistency`). Three ordered keyword rules run
  over the lower-cased prompt and continuation.
- **The configuration derivation** (`create_symbolic_config`). It works in this order:
  1. the model type is chosen, with reconstruction first, then standard norm, then plain symbolic;
  2. the architecture and batch overrides are applied when given;
  3. the flags and training parameters are copied;
  4. the reconstruction-loss weight is copied only in reconstruction mode.
- **The gradient-accumulation arithmetic of `main`**. It computes
  `max(1, effective // mini_batch)`, the resulting batch size, and the "adjusted" note.

Module layout:

- `Wrappers`: `Option` and `Result`.
- `Text`: ASCII `str.lower` and the substring test `in`.
- `Paths`: `str(int)` with its inverse, POSIX `os.path.join`, and checkpoint file names.
- `Consistency`: the heuristic.
- `Accumulation`: the batching report.
- `SymbolicConfig`: the configuration derivation.
- `Checkpoint`: the loader. The pure function `Restore` specifies it, and the imperative method
  `LoadCheckpointForResumption` mutates two `StateHolder` objects.
- `Resume`: the generic trainer and the wrapper, both as classes. The wrapper's monkey patch is a
  `SaveFn` chain: `Original`, or `Adjusted(offset, next)`.
- `Session`: the epoch bookkeeping across a load, a resumed run and the final save in `main`.

A checkpoint whose model or optimizer state does not fit does not abort the run. `load_state_dict`
runs inside the same `try … except Exception` block as the rest of the loader
(`examples/train_symbolic_example.py:413-453`), so the mismatch is caught and training starts from
epoch 0. See `Checkpoint.Restore` and `Checkpoint.LateErrorKeepsLoadedState`.

## Model

| member | source | states |
|---|---|---|
| Text.LowerChar | examples/train_symbolic_example.py:217-218 | the result of lower-casing one character is never an ASCII capital; a capital becomes the lower-case letter at the same alphabet position; any other character is kept |
| Text.Lower | examples/train_symbolic_example.py:217-218 | `lower()` keeps the length and lower-cases each character in place |
| Text.LowerIdempotent | examples/train_symbolic_example.py:217-218 | lower-casing already lower-cased text changes nothing |
| Text.LowerOfSameIgnoringCase | examples/train_symbolic_example.py:217-218 | two texts that differ only in letter case lower-case to the same text |
| Text.Contains | examples/train_symbolic_example.py:221 | `t in s` holds exactly when `t` occurs at some position of `s` |
| Text.ContainsAny | examples/train_symbolic_example.py:222 | `any(w in s for w in words)` holds exactly when some word of the list occurs in `s` |
| Consistency.MessageInjective | examples/train_symbolic_example.py:223-232 | the three notes have pairwise distinct messages, so the message identifies the rule that fired |
| Consistency.Analyze | examples/train_symbolic_example.py:211-234 | each of the four outcomes (logical, sequence, mathematical, none) happens exactly when its rule fires and no earlier rule does, both directions |
| Consistency.AnalyzeIgnoresCase | examples/train_symbolic_example.py:217-218 | texts that are equal up to letter case get the same note |
| Consistency.AnalyzeOfLowered | examples/train_symbolic_example.py:217-218 | analysing already lower-cased texts gives the same note |
| Consistency.SequenceIgnoresContinuation | examples/train_symbolic_example.py:226-227 | when the prompt starts a known sequence and has no "if", every continuation gets the sequence note |
| Consistency.LogicalExample | examples/train_symbolic_example.py:221-223 | "If it rains then" followed by "so it is wet" gets the logical-structure note |
| Consistency.SequenceExample | examples/train_symbolic_example.py:226-227 | "Monday Tuesday" gets the sequence note, whatever its case |
| Consistency.MathExample | examples/train_symbolic_example.py:230-232 | "2 Plus 2" followed by "is 4" gets the mathematical-reasoning note |
| SymbolicConfig.CreateSymbolicConfig | examples/train_symbolic_example.py:237-292 | the model type follows the precedence reconstruction, standard norm, symbolic; the block type is "Symbolic"; each override replaces its field exactly when given; flags and training parameters are copied; the reconstruction weight changes only in reconstruction mode; the vocabulary size stays the preset's |
| SymbolicConfig.SelectModelType | examples/train_symbolic_example.py:246-251 | only the model type changes, and it is chosen by the precedence above |
| SymbolicConfig.ApplyOverrides | examples/train_symbolic_example.py:254-271 | each of the nine overridable fields takes the argument when given, else keeps its value; no other field changes |
| SymbolicConfig.ModelTypesDistinct | examples/train_symbolic_example.py:246-251 | the three model-type names are pairwise distinct |
| Accumulation.FloorDiv | examples/train_symbolic_example.py:598 | Python's `//` rounds towards negative infinity, for either sign of the divisor |
| Accumulation.AccumulationSteps | examples/train_symbolic_example.py:598 | the steps are at least 1; for a positive mini-batch and a request of at least one mini-batch they are the floor quotient; below two mini-batches they are 1 |
| Accumulation.Plan | examples/train_symbolic_example.py:596-611 | a truthy effective size with mini-batch 0 is exactly the failing case (division by zero); a truthy effective size gives derived steps ≥ 1 equal to `max(1, effective // mini_batch)`, effective = steps × mini-batch, and the note exactly when effective ≠ request; otherwise explicit steps above 1, or no accumulation |
| Accumulation.DerivedIsLargestMultiple | examples/train_symbolic_example.py:598-599 | the derived batch does not exceed the request and is at least every multiple of the mini-batch that fits |
| Accumulation.AdjustedIffNotMultiple | examples/train_symbolic_example.py:603-604 | for positive sizes the note appears exactly when the request is below one mini-batch or not a multiple of it; below one mini-batch one mini-batch is used |
| Accumulation.UsageExample | examples/train_symbolic_example.py:596-604 | mini-batch 8 with request 32 gives 4 steps and no note; with request 30 it gives 3 steps, 24 and the note |
| Paths.NatToString | examples/train_symbolic_example.py:488 | the rendering is a non-empty string of digits with no leading zero |
| Paths.ParseNatToString | examples/train_symbolic_example.py:488 | reading the rendered digits back gives the number |
| Paths.IntToString | examples/train_symbolic_example.py:488 | `str(n)` is non-empty, starts with a digit for n ≥ 0 and with '-' for n < 0 |
| Paths.ParseIntToString | examples/train_symbolic_example.py:488 | `int(str(n)) == n` |
| Paths.IntToStringInjective | examples/train_symbolic_example.py:488 | distinct integers render differently |
| Paths.JoinShape | examples/train_symbolic_example.py:489 | the name is always a suffix of the joined path; an absolute name is the whole path; for a relative name the directory is a prefix, and exactly one '/' lies between them when the directory is non-empty and does not end in '/', none otherwise |
| Paths.JoinInjective | examples/train_symbolic_example.py:489 | in one directory, distinct relative names give distinct paths |
| Paths.CheckpointName | examples/train_symbolic_example.py:488 | `checkpoint_epoch_<n>.pt` is a non-empty relative name |
| Paths.CheckpointNameInjective | examples/train_symbolic_example.py:488 | the epoch can be recovered from the file name |
| Paths.CheckpointPathsDistinct | examples/train_symbolic_example.py:487-489 | checkpoints of different epochs in one directory are different files |
| Paths.CheckpointNameExamples | examples/train_symbolic_example.py:488 | epochs 3, 4 and 12 give `checkpoint_epoch_3.pt`, `checkpoint_epoch_4.pt` and `checkpoint_epoch_12.pt` |
| Checkpoint.Restore | examples/train_symbolic_example.py:413-453 | a bundle that is read and raises nothing resumes at stored epoch + 1 (or 0 without an epoch); every other case starts at 0; the model state is installed exactly when it fits; the optimizer state exactly when it fits and the model state did not raise first |
| Checkpoint.StartIsZeroOrAfterStoredEpoch | examples/train_symbolic_example.py:413-448 | the start epoch is either 0 or one past an integer epoch stored in the bundle |
| Checkpoint.LateErrorKeepsLoadedState | examples/train_symbolic_example.py:442-448 | a loss that cannot be formatted resets the start to 0, yet the model and optimizer states stay loaded |
| Checkpoint.StateHolder.constructor | examples/train_symbolic_example.py:399 | a model or optimizer starts with the given state and the set of state dictionaries it accepts |
| Checkpoint.StateHolder.LoadStateDict | examples/train_symbolic_example.py:422 | `load_state_dict` succeeds exactly when the entry fits, installs it then, and otherwise keeps the state |
| Checkpoint.LoadCheckpointForResumption | examples/train_symbolic_example.py:399-453 | returns the start epoch `Restore` gives and leaves on model and optimizer the states `Restore` installs, or their previous ones |
| Resume.ShiftCompose | examples/train_symbolic_example.py:485 | shifting by `a` and then by `b` is shifting by `a + b`, and a zero offset changes nothing, so stacked wrappers add their offsets |
| Resume.NestedWrappersCompose | examples/train_symbolic_example.py:484-490 | a wrapper around a wrapper writes the same checkpoint as one wrapper with the summed offset |
| Resume.Route | examples/train_symbolic_example.py:484-490 | through a chain of wrappers, a present epoch gains the sum of the offsets and, with an output directory, the file is named after the shifted epoch; an absent epoch passes through with the caller's path |
| Resume.EpochSaves | examples/train_symbolic_example.py:495 | the trainer's per-epoch saves, one per epoch `0 .. n-1` routed through `save_checkpoint` |
| Resume.Trainer.constructor | examples/train_symbolic_example.py:666-678 | the trainer starts with the configured epoch count and output directory, its own `save_checkpoint`, and no saves |
| Resume.Trainer.SaveCheckpoint | examples/train_symbolic_example.py:490 | a call through the current `save_checkpoint` attribute appends the routed checkpoint |
| Resume.Trainer.Train | examples/train_symbolic_example.py:495 | the inner trainer records one run with its current epoch count and saves epochs `0 .. numEpochs-1` through its current attribute |
| Resume.ResumeTrainer.constructor | examples/train_symbolic_example.py:461-463 | keeps the trainer and the start epoch |
| Resume.ResumeTrainer.Train | examples/train_symbolic_example.py:465-501 | epoch count, `save_checkpoint` and output directory are restored; with nothing remaining it returns the zero result and the trainer does not run; otherwise the trainer runs exactly once, with the remaining epochs, through `Adjusted(start, previous attribute)`, and its result is returned |
| Resume.ResumedSaves | examples/train_symbolic_example.py:484-490 | in a resumed run the k-th checkpoint records epoch start + k and is named after it when an output directory is set; the last one records the final configured epoch |
| Resume.ResumedSavesDistinctFiles | examples/train_symbolic_example.py:487-489 | with an output directory, no two checkpoints of a resumed run share a file |
| Resume.ResumeExample | examples/train_symbolic_example.py:465-501 | a run resumed at epoch 3 of 5 writes `checkpoint_epoch_3.pt` and `checkpoint_epoch_4.pt`, recording epochs 3 and 4 |
| Resume.ResumeExampleRun | examples/train_symbolic_example.py:465-501 | on a fresh 5-epoch trainer with output directory "out", the wrapper at 3 runs the trainer once for 2 epochs, writes `out/checkpoint_epoch_3.pt` and `out/checkpoint_epoch_4.pt`, returns the trainer's result and restores it; a wrapper at 5 then returns the zero result without running it |
| Session.ResumeFromEpochOnly | examples/train_symbolic_example.py:435-436 | a bundle that holds only an integer epoch resumes right after it and installs no state |
| Session.ResumeAfterEpochCheckpoint | examples/train_symbolic_example.py:435-490 | resuming from the checkpoint of absolute epoch e continues at e + 1, and the first new checkpoint is labelled e + 1 |
| Session.FinalSaveAsWrittenSkipsAnEpoch | examples/train_symbolic_example.py:697 | with the final epoch written as `num_epochs`, a later resumption starts at num_epochs + 1 and labels no checkpoint num_epochs; resumed with one more epoch it trains nothing |
| Session.FinalSaveAsWrittenExample | examples/train_symbolic_example.py:697 | 5 epochs, then resumed to 8, starts at 6 and runs 2 epochs |
| Session.FinalSaveResumesAtNextEpoch | examples/train_symbolic_example.py:697 | with the final epoch recorded as num_epochs - 1, a later resumption labels its checkpoints num_epochs … later - 1: no gap and no repetition |
| Session.TrainWithResumption | examples/train_symbolic_example.py:661-697 | loading, wrapping and training compose: the model and optimizer get the loaded states, the wrapper starts at the loaded epoch, and the trainer's epoch count, `save_checkpoint` and output directory are restored afterwards; with nothing remaining the trainer does not run and saves nothing; the final epoch recorded is `config.num_epochs`, as written |

## Left out

- `TeeOutput`, `setup_logging`, the `sys.stdout` swap and every log or print line: console and file
  output only. The report `Plan` computes is what those lines print.
- `test_symbolic_interpretability`, `test_generation` and the sampling loops: they need a trained
  model and a tokenizer. Only the heuristic they call is modelled.
- `parse_args` and argparse defaults, `get_preset_config` and `__post_init__`: the preset arrives
  as the parameter `preset`. `Config` remains a plain record, so validation by `__post_init__` is
  not modelled.
- Dataset loading, tokenizer setup, the character-vocabulary column search and the data loader:
  these are library I/O.
- `torch.load`, `torch.save`, AdamW, device placement and parameter counting: tensor library. A
  state dictionary is an identity number, and `StateHolder.accepts` says which shapes a model or
  optimizer accepts.
- Checkpoint.StateHolder.LoadStateDict: a failing `load_state_dict` keeps the previous state. A partial load
  before the exception is not modelled.
- Checkpoint.Restore: an epoch stored as a float is treated as an exception, so the start is 0.
  Python raises nothing there: the start is the float plus 1, and `ResumeTrainer` computes with it.
  When it is at least `num_epochs` the wrapper returns the zero result, where the model starts
  over at 0. Otherwise the remaining epochs are a float and the files are named like
  `checkpoint_epoch_4.0.pt`. Whether the inner trainer accepts a float count is not known here.
- Checkpoint.Restore: Python's `bool` is an `int`. An epoch stored as `True`/`False` is not
  distinguished from 1/0.
- Checkpoint.Restore: whether a stored loss can be formatted with `:.6f` is reduced to "it is a
  number".
- Resume.Trainer.Train: the inner trainer, from another module, is abstracted as a loop that saves
  epoch i at `proposed(i)`. Its arithmetic, its exceptions and its keyword arguments to
  `save_checkpoint` are not modelled. An exception in it would leave the trainer patched, because
  the wrapper has no `try/finally`.
- Text.Lower: lower-cases ASCII letters only; the Unicode case mappings of `str.lower` are not
  modelled.
- Floating-point fields (dropout, learning rate, weight decay, temperature, reconstruction weight)
  are copied as `real`, never computed.
- The re-exports in `src/inference/__init__.py` and `src/mytokenizers/__init__.py` are not part of
  this model.

## Findings

| source | as written | input that shows it | evidently intended | confidence | as-written member | corrected member |
|---|---|---|---|---|---|---|
| examples/train_symbolic_example.py:697 | the final model file records `'epoch': config.num_epochs`, but every per-epoch checkpoint records the index of its epoch, and the loader resumes at stored epoch + 1 | train 5 epochs (indices 0 … 4), then resume from the final model with `--num_epochs 8`: the run starts at 6, so epoch 5 is never trained | record the last trained epoch, `num_epochs - 1`, so that resuming continues at `num_epochs` | not executed; medium, because it depends on the inner trainer counting epochs from 0 | Session.FinalSaveAsWrittenSkipsAnEpoch | Session.FinalSaveResumesAtNextEpoch |
