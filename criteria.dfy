/** `build_criterion` and `build_token_criterion` of fairseq/utils.py: the
    choice of training loss from the command-line arguments. The criterion
    classes themselves are opaque; only their constructor arguments and their
    class names (which checkpoints record) are kept. */
module Criteria {

  /** The arguments `build_criterion` reads. */
  datatype CriterionArgs = CriterionArgs(
    seqCriterion: string,
    seqCombinedLossAlpha: real,
    labelSmoothing: real)

  /** The criterion objects `build_criterion` can return. */
  datatype Criterion =
    | CrossEntropy(paddingIdx: int)
    | LabelSmoothedCrossEntropy(eps: real, paddingIdx: int)
      /** A sequence-level criterion looked up by name in the registry. */
    | Sequence(name: string)
    | CombinedSequence(token: Criterion, sequence: Criterion, alpha: real)

  const CrossEntropyName: string := "CrossEntropyCriterion"
  const LabelSmoothedName: string := "LabelSmoothedCrossEntropyCriterion"
  const CombinedSequenceName: string := "CombinedSequenceCriterion"

  /** `criterion.__class__.__name__`; a registry entry's class is found under
      its own name. */
  function ClassName(c: Criterion): (name: string)
    ensures name == CrossEntropyName <==> c.CrossEntropy? || (c.Sequence? && c.name == CrossEntropyName)
    ensures name == LabelSmoothedName <==> c.LabelSmoothedCrossEntropy? || (c.Sequence? && c.name == LabelSmoothedName)
  {
    match c
    case CrossEntropy(_) => CrossEntropyName
    case LabelSmoothedCrossEntropy(_, _) => LabelSmoothedName
    case Sequence(name) => name
    case CombinedSequence(_, _, _) => CombinedSequenceName
  }

  /** A token-level criterion: the only two that `build_token_criterion` makes. */
  predicate IsTokenCriterion(c: Criterion)
  {
    c.CrossEntropy? || c.LabelSmoothedCrossEntropy?
  }

  /** Token-level training: label-smoothed cross-entropy when smoothing is
      positive, plain cross-entropy otherwise; the choice does not depend on `paddingIdx`,
      which both carry. */
  function BuildTokenCriterion(args: CriterionArgs, paddingIdx: int): (c: Criterion)
    ensures IsTokenCriterion(c) && c.paddingIdx == paddingIdx
    ensures c.LabelSmoothedCrossEntropy? <==> args.labelSmoothing > 0.0
    ensures c.LabelSmoothedCrossEntropy? ==> c.eps == args.labelSmoothing
  {
    if args.labelSmoothing > 0.0 then
      LabelSmoothedCrossEntropy(args.labelSmoothing, paddingIdx)
    else
      CrossEntropy(paddingIdx)
  }

  /** Sequence-level training when `seqCriterion` names a registered sequence
      criterion (combined with the token-level one when alpha is positive);
      token-level training otherwise. `sequenceCriterions` is the registry. */
  function BuildCriterion(args: CriterionArgs, sequenceCriterions: set<string>, paddingIdx: int): (c: Criterion)
    ensures args.seqCriterion !in sequenceCriterions ==>
              c == BuildTokenCriterion(args, paddingIdx)
    ensures args.seqCriterion in sequenceCriterions && args.seqCombinedLossAlpha <= 0.0 ==>
              c == Sequence(args.seqCriterion)
    ensures c.CombinedSequence? <==>
              args.seqCriterion in sequenceCriterions && args.seqCombinedLossAlpha > 0.0
    ensures c.CombinedSequence? ==>
              && c.token == BuildTokenCriterion(args, paddingIdx)
              && c.sequence == Sequence(args.seqCriterion)
              && c.alpha == args.seqCombinedLossAlpha
  {
    if args.seqCriterion in sequenceCriterions then
      var sequenceCriterion := Sequence(args.seqCriterion);
      if args.seqCombinedLossAlpha > 0.0 then
        CombinedSequence(BuildTokenCriterion(args, paddingIdx), sequenceCriterion, args.seqCombinedLossAlpha)
      else
        sequenceCriterion
    else
      BuildTokenCriterion(args, paddingIdx)
  }

  /** The class name recorded in a checkpoint is the plain cross-entropy one
      exactly when training is token-level without label smoothing (given a
      registry that does not reuse the built-in class names). */
  lemma BuildsCrossEntropyName(args: CriterionArgs, sequenceCriterions: set<string>, paddingIdx: int)
    requires CrossEntropyName !in sequenceCriterions
    ensures ClassName(BuildCriterion(args, sequenceCriterions, paddingIdx)) == CrossEntropyName
        <==> args.seqCriterion !in sequenceCriterions && args.labelSmoothing <= 0.0
  {
    var c := BuildCriterion(args, sequenceCriterions, paddingIdx);
    if args.seqCriterion in sequenceCriterions && args.seqCombinedLossAlpha <= 0.0 {
      assert ClassName(c) == args.seqCriterion;
    }
  }
}
