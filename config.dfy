/**
  Deriving the symbolic-transformer configuration from a size preset and the
  command-line arguments (`create_symbolic_config`). Floating-point fields
  (dropout, learning rate, weight decay, temperature, reconstruction-loss
  weight) are copied and never computed, so they are modelled as `real`.
 */
module SymbolicConfig {
  import opened Wrappers

  /** The fields of the configuration record that the derivation reads or writes. */
  datatype Config = Config(
    modelType: string,
    transformerBlockType: string,
    blockSize: int,
    maxPositionEmbeddings: int,
    nLayer: int,
    nHead: int,
    nEmbd: int,
    dropout: real,
    bias: bool,
    batchSize: int,
    learningRate: real,
    useSymbolicFfn: bool,
    useVocabRefinement: bool,
    useV: bool,
    useProj: bool,
    numEpochs: int,
    weightDecay: real,
    generationMaxLen: int,
    temperature: real,
    topK: int,
    reconstructionLossWeight: real,
    vocabSize: int)

  /**
    The arguments the derivation consults. `None` stands for an argument the
    user did not give (argparse default `None`); the other fields always have
    a value.
   */
  datatype Args = Args(
    blockSize: Option<int>,
    maxPositionEmbeddings: Option<int>,
    nLayer: Option<int>,
    nHead: Option<int>,
    nEmbd: Option<int>,
    dropout: Option<real>,
    bias: Option<bool>,
    batchSize: Option<int>,
    learningRate: Option<real>,
    useSymbolicFfn: bool,
    useVocabRefinement: bool,
    useV: bool,
    useProj: bool,
    useReconstruction: bool,
    reconstructionLossWeight: real,
    useStandardNorm: bool,
    numEpochs: int,
    weightDecay: real,
    generationMaxLen: int,
    temperature: real,
    topK: int)

  /** `if arg is not None: field = arg`: the argument's value when it was given, the field's otherwise. */
  function Override<T>(arg: Option<T>, field: T): T {
    if arg.Some? then arg.value else field
  }

  /** The model variants the script can build. */
  const SymbolicName: string := "Symbolic"
  const ReconstructName: string := "SymbolicReconstruct"
  const StandardNormName: string := "SymbolicStandardNorm"

  /**
    `create_symbolic_config(args)` applied to `preset`, the configuration
    `get_preset_config(args.preset)` returns. The model type follows the
    precedence reconstruction, then standard norm, then plain symbolic; each
    optional override replaces its own field only when given; the flags and
    training parameters are always copied; the reconstruction-loss weight
    only in reconstruction mode; everything else keeps the preset's value.
   */
  method CreateSymbolicConfig(preset: Config, args: Args) returns (config: Config)
    ensures args.useReconstruction ==> config.modelType == ReconstructName
    ensures !args.useReconstruction && args.useStandardNorm ==> config.modelType == StandardNormName
    ensures !args.useReconstruction && !args.useStandardNorm ==> config.modelType == SymbolicName
    ensures config.transformerBlockType == SymbolicName
    ensures config.blockSize == Override(args.blockSize, preset.blockSize)
    ensures config.maxPositionEmbeddings == Override(args.maxPositionEmbeddings, preset.maxPositionEmbeddings)
    ensures config.nLayer == Override(args.nLayer, preset.nLayer)
    ensures config.nHead == Override(args.nHead, preset.nHead)
    ensures config.nEmbd == Override(args.nEmbd, preset.nEmbd)
    ensures config.dropout == Override(args.dropout, preset.dropout)
    ensures config.bias == Override(args.bias, preset.bias)
    ensures config.batchSize == Override(args.batchSize, preset.batchSize)
    ensures config.learningRate == Override(args.learningRate, preset.learningRate)
    ensures config.useSymbolicFfn == args.useSymbolicFfn
    ensures config.useVocabRefinement == args.useVocabRefinement
    ensures config.useV == args.useV && config.useProj == args.useProj
    ensures config.numEpochs == args.numEpochs && config.weightDecay == args.weightDecay
    ensures config.generationMaxLen == args.generationMaxLen
    ensures config.temperature == args.temperature && config.topK == args.topK
    ensures config.reconstructionLossWeight ==
              if args.useReconstruction then args.reconstructionLossWeight
              else preset.reconstructionLossWeight
    ensures config.vocabSize == preset.vocabSize
  {
    config := preset;

    // set the model type
    config := config.(modelType := SymbolicName);
    config := config.(transformerBlockType := SymbolicName);
    config := SelectModelType(config, args);

    // override with command-line arguments
    config := ApplyOverrides(config, args);

    // symbolic-specific parameters
    config := config.(useSymbolicFfn := args.useSymbolicFfn);
    config := config.(useVocabRefinement := args.useVocabRefinement);
    config := config.(useV := args.useV);
    config := config.(useProj := args.useProj);

    // training parameters
    config := config.(numEpochs := args.numEpochs);
    config := config.(weightDecay := args.weightDecay);
    config := config.(generationMaxLen := args.generationMaxLen);
    config := config.(temperature := args.temperature);
    config := config.(topK := args.topK);

    if args.useReconstruction {
      config := config.(reconstructionLossWeight := args.reconstructionLossWeight);
    }
  }

  /** The model-type step: reconstruction wins over standard norm, which wins over the plain variant. */
  method SelectModelType(current: Config, args: Args) returns (config: Config)
    ensures config == current.(modelType := config.modelType)
    ensures config.modelType ==
              if args.useReconstruction then ReconstructName
              else if args.useStandardNorm then StandardNormName
              else SymbolicName
  {
    config := current;
    if args.useReconstruction {
      config := config.(modelType := ReconstructName);
    } else if args.useStandardNorm {
      config := config.(modelType := StandardNormName);
    } else {
      config := config.(modelType := SymbolicName);
    }
  }

  /**
    The override step: each architecture or batch argument that was given
    replaces its own field; an argument that was not given leaves it as it is,
    and no other field changes.
   */
  method ApplyOverrides(current: Config, args: Args) returns (config: Config)
    ensures config ==
              current.(blockSize := Override(args.blockSize, current.blockSize),
                       maxPositionEmbeddings := Override(args.maxPositionEmbeddings, current.maxPositionEmbeddings),
                       nLayer := Override(args.nLayer, current.nLayer),
                       nHead := Override(args.nHead, current.nHead),
                       nEmbd := Override(args.nEmbd, current.nEmbd),
                       dropout := Override(args.dropout, current.dropout),
                       bias := Override(args.bias, current.bias),
                       batchSize := Override(args.batchSize, current.batchSize),
                       learningRate := Override(args.learningRate, current.learningRate))
  {
    config := current;
    config := config.(blockSize := Override(args.blockSize, config.blockSize));
    config := config.(maxPositionEmbeddings := Override(args.maxPositionEmbeddings, config.maxPositionEmbeddings));
    config := config.(nLayer := Override(args.nLayer, config.nLayer));
    config := config.(nHead := Override(args.nHead, config.nHead));
    config := config.(nEmbd := Override(args.nEmbd, config.nEmbd));
    config := config.(dropout := Override(args.dropout, config.dropout));
    config := config.(bias := Override(args.bias, config.bias));
    config := config.(batchSize := Override(args.batchSize, config.batchSize));
    config := config.(learningRate := Override(args.learningRate, config.learningRate));
  }

  /** The three model-type names are distinct, so the precedence above is observable. */
  lemma ModelTypesDistinct()
    ensures SymbolicName != ReconstructName
    ensures SymbolicName != StandardNormName
    ensures ReconstructName != StandardNormName
  {
    assert |SymbolicName| == 8 && |StandardNormName| == 20 && |ReconstructName| == 19;
  }
}
