/**
  Restoring training state from a checkpoint file
  (`load_checkpoint_for_resumption`). The file system and the tensor library
  are parameters: whether the path exists, what reading the file yields, and
  which state dictionaries a model or optimizer accepts. Any exception inside
  the loader's `try` block makes it start from epoch 0, but the state loaded
  before the exception stays loaded.
 */
module Checkpoint {
  import opened Wrappers

  /** A value stored under a key of the checkpoint bundle. */
  datatype Entry =
    | IntValue(n: int)
    | FloatValue(x: real)
    | StateDict(id: nat)   // a model or optimizer state dictionary, known only by identity
    | OtherValue           // any other Python object

  /** The dictionary `torch.load` returns. */
  type Bundle = map<string, Entry>

  /** What reading the checkpoint file yields: a bundle, or an exception. */
  datatype ReadOutcome = Unreadable | Read(bundle: Bundle)

  const ModelKey: string := "model_state_dict"
  const OptimizerKey: string := "optimizer_state_dict"
  const EpochKey: string := "epoch"
  const LossKey: string := "loss"

  /** Python's truthiness of an optional path: present and non-empty. */
  predicate Truthy(path: Option<string>) {
    path.Some? && path.value != ""
  }

  /** `load_state_dict(e)` succeeds: `e` is a state dictionary whose shapes fit. */
  predicate Fits(e: Entry, accepts: set<nat>) {
    e.StateDict? && e.id in accepts
  }

  /** `f"{e:.6f}"` succeeds: the stored loss is a number. */
  predicate Formattable(e: Entry) {
    e.IntValue? || e.FloatValue?
  }

  /** The observable effect of the loader: the start epoch and the states it installed. */
  datatype Effect = Effect(startEpoch: int, modelState: Option<nat>, optimizerState: Option<nat>)

  /** The loader got as far as reading a bundle. */
  predicate Opened(path: Option<string>, found: bool, read: ReadOutcome) {
    Truthy(path) && found && read.Read?
  }

  /** Nothing in the bundle makes the `try` block raise. */
  predicate Clean(b: Bundle, modelAccepts: set<nat>, optimizerAccepts: set<nat>) {
    && (ModelKey in b ==> Fits(b[ModelKey], modelAccepts))
    && (OptimizerKey in b ==> Fits(b[OptimizerKey], optimizerAccepts))
    && (EpochKey in b ==> b[EpochKey].IntValue?)
    && (LossKey in b ==> Formattable(b[LossKey]))
  }

  /**
    The effect of `load_checkpoint_for_resumption`: the statements of its
    `try` block in order, each able to raise and end the block.
   */
  function Restore(path: Option<string>, found: bool, read: ReadOutcome,
                  modelAccepts: set<nat>, optimizerAccepts: set<nat>): (e: Effect)
    // a clean bundle with an epoch resumes after that epoch
    ensures Opened(path, found, read) && Clean(read.bundle, modelAccepts, optimizerAccepts)
              && EpochKey in read.bundle
            ==> e.startEpoch == read.bundle[EpochKey].n + 1
    // in every other case the run starts from scratch
    ensures !(Opened(path, found, read) && Clean(read.bundle, modelAccepts, optimizerAccepts)
              && EpochKey in read.bundle)
            ==> e.startEpoch == 0
    // no path, a missing file or an unreadable file changes nothing
    ensures !Opened(path, found, read) ==> e.modelState == None && e.optimizerState == None
    // the model state is installed exactly when the bundle has one that fits
    ensures e.modelState.Some? <==>
              Opened(path, found, read) && ModelKey in read.bundle
              && Fits(read.bundle[ModelKey], modelAccepts)
    ensures e.modelState.Some? ==> e.modelState.value == read.bundle[ModelKey].id
    // the optimizer state is installed when it fits and loading the model did not raise first
    ensures e.optimizerState.Some? <==>
              Opened(path, found, read) && OptimizerKey in read.bundle
              && Fits(read.bundle[OptimizerKey], optimizerAccepts)
              && (ModelKey in read.bundle ==> Fits(read.bundle[ModelKey], modelAccepts))
    ensures e.optimizerState.Some? ==> e.optimizerState.value == read.bundle[OptimizerKey].id
  {
    if !(Truthy(path) && found) then Effect(0, None, None)
    else match read
      case Unreadable => Effect(0, None, None)
      case Read(b) =>
        if ModelKey in b && !Fits(b[ModelKey], modelAccepts) then Effect(0, None, None)
        else
          var m := if ModelKey in b then Some(b[ModelKey].id) else None;
          if OptimizerKey in b && !Fits(b[OptimizerKey], optimizerAccepts) then Effect(0, m, None)
          else
            var o := if OptimizerKey in b then Some(b[OptimizerKey].id) else None;
            if EpochKey in b && !b[EpochKey].IntValue? then Effect(0, m, o)
            else
              var start := if EpochKey in b then b[EpochKey].n + 1 else 0;
              if LossKey in b && !Formattable(b[LossKey]) then Effect(0, m, o)
              else Effect(start, m, o)
  }

  /**
    The resumed run starts either from scratch or right after an epoch the
    checkpoint records; never anywhere else.
   */
  lemma StartIsZeroOrAfterStoredEpoch(path: Option<string>, found: bool, read: ReadOutcome,
                                      modelAccepts: set<nat>, optimizerAccepts: set<nat>)
    ensures var e := Restore(path, found, read, modelAccepts, optimizerAccepts);
            e.startEpoch == 0
            || (read.Read? && EpochKey in read.bundle && read.bundle[EpochKey].IntValue?
                && e.startEpoch == read.bundle[EpochKey].n + 1)
  {
  }

  /**
    A bad loss entry, checked last, still resets the start epoch, although
    the model and optimizer states it found have already been installed.
   */
  lemma LateErrorKeepsLoadedState(stored: int, modelId: nat, optimizerId: nat)
    ensures var b := map[ModelKey := StateDict(modelId), OptimizerKey := StateDict(optimizerId),
                         EpochKey := IntValue(stored), LossKey := OtherValue];
            Restore(Some("ckpt.pt"), true, Read(b), {modelId}, {optimizerId})
              == Effect(0, Some(modelId), Some(optimizerId))
  {
    var b := map[ModelKey := StateDict(modelId), OptimizerKey := StateDict(optimizerId),
                 EpochKey := IntValue(stored), LossKey := OtherValue];
    assert ModelKey != LossKey && OptimizerKey != LossKey && EpochKey != LossKey;
    assert ModelKey != OptimizerKey && ModelKey != EpochKey && OptimizerKey != EpochKey;
    assert b[LossKey] == OtherValue;
  }

  /**
    A model (or optimizer) whose state can be replaced by `load_state_dict`.
    The parameters are known only by the identity of the state dictionary
    they were last loaded from.
   */
  class StateHolder {
    var state: nat
    const accepts: set<nat>

    constructor (initial: nat, accepts: set<nat>)
      ensures state == initial && this.accepts == accepts
    {
      state := initial;
      this.accepts := accepts;
    }

    /** `load_state_dict(e)`: installs `e` when it fits; otherwise raises and keeps the state. */
    method LoadStateDict(e: Entry) returns (ok: bool)
      modifies this
      ensures ok == Fits(e, accepts)
      ensures state == if ok then e.id else old(state)
    {
      ok := Fits(e, accepts);
      if ok {
        state := e.id;
      }
    }
  }

  /**
    `load_checkpoint_for_resumption(path, model, optimizer, ...)`: returns the
    start epoch and leaves on `model` and `optimizer` the states `Restore`
    describes (the previous state where it installs none).
   */
  method LoadCheckpointForResumption(path: Option<string>, found: bool, read: ReadOutcome,
                                     model: StateHolder, optimizer: StateHolder)
    returns (startEpoch: int)
    requires model != optimizer
    modifies model, optimizer
    ensures var e := Restore(path, found, read, model.accepts, optimizer.accepts);
            && startEpoch == e.startEpoch
            && model.state == e.modelState.GetOr(old(model.state))
            && optimizer.state == e.optimizerState.GetOr(old(optimizer.state))
  {
    startEpoch := 0;
    if Truthy(path) && found {
      match read
      case Unreadable =>
        startEpoch := 0;
      case Read(checkpoint) =>
        var raised := false;
        if ModelKey in checkpoint {
          var ok := model.LoadStateDict(checkpoint[ModelKey]);
          raised := !ok;
        }
        if !raised && OptimizerKey in checkpoint {
          var ok := optimizer.LoadStateDict(checkpoint[OptimizerKey]);
          raised := !ok;
        }
        if !raised && EpochKey in checkpoint {
          match checkpoint[EpochKey]
          case IntValue(n) => startEpoch := n + 1;
          case _ => raised := true;
        }
        if !raised && LossKey in checkpoint && !Formattable(checkpoint[LossKey]) {
          raised := true;
        }
        if raised {
          startEpoch := 0;
        }
    }
  }
}
