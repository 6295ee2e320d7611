/** Turning the classifier's output into a labelled result, for one comment
    and for the comments of an uploaded file. The pretrained model itself
    (tokenizer, forward pass and softmax) is a parameter: a function from the
    comment text to the two-class probability distribution it outputs. The
    argmax over that distribution and the reading of the toxic-class entry
    are modelled. */
module Classifier {

  /** The two classes, shown and exported as "Toxic" and "Clean". */
  datatype Label = Toxic | Clean {
    function Name(): (s: string)
      ensures s == "Toxic" || s == "Clean"
      ensures (s == "Toxic") <==> this == Toxic
    {
      match this
      case Toxic => "Toxic"
      case Clean => "Clean"
    }
  }

  /** The softmax row `probs[0]` for one text: class 0 is clean, class 1 toxic. */
  datatype Probabilities = Probabilities(clean: real, toxic: real)

  /** What a softmax over two logits yields: two non-negative probabilities
      that sum to one. */
  type Distribution = d: Probabilities | 0.0 <= d.clean && 0.0 <= d.toxic && d.clean + d.toxic == 1.0
    witness Probabilities(1.0, 0.0)

  /** The probability of class `index` (0 or 1). */
  function ProbabilityOf(d: Distribution, index: int): real
    requires index == 0 || index == 1
  {
    if index == 0 then d.clean else d.toxic
  }

  /** `torch.argmax(probs, dim=1)` over the two classes: an index whose
      probability is maximal, the first one when both are equal. */
  function Argmax(d: Distribution): (index: int)
    ensures index == 0 || index == 1
    ensures ProbabilityOf(d, index) >= ProbabilityOf(d, 1 - index)
    ensures ProbabilityOf(d, 0) == ProbabilityOf(d, 1) ==> index == 0
  {
    if d.toxic > d.clean then 1 else 0
  }

  /** A `{comment, label, confidence}` record; `verdict` holds the label. */
  datatype ClassificationResult = ClassificationResult(comment: string, verdict: Label, confidence: real)

  /** The index 1 is the toxic class; any other index reads as clean. */
  function LabelOf(index: int): (l: Label)
    ensures l == Toxic <==> index == 1
  {
    if index == 1 then Toxic else Clean
  }

  /** One classification: the label follows the predicted index, while the
      confidence is the toxic-class probability whichever label is chosen, and
      the comment is kept verbatim. The confidence is therefore a probability,
      above one half exactly for a Toxic verdict: a confidently clean comment
      reports a confidence near zero. */
  function Classify(model: string -> Distribution, text: string): (r: ClassificationResult)
    ensures r.comment == text
    ensures r.verdict == Toxic <==> Argmax(model(text)) == 1
    ensures r.verdict == Clean <==> Argmax(model(text)) == 0
    ensures r.confidence == model(text).toxic
    ensures 0.0 <= r.confidence <= 1.0
    ensures r.verdict == Toxic <==> r.confidence > 0.5
    ensures r.verdict == Clean <==> r.confidence <= 0.5
  {
    var probs := model(text);
    ClassificationResult(text, LabelOf(Argmax(probs)), probs.toxic)
  }

  /** Corollary of `Classify`'s contract, stated for the case worth noting: a
      clean verdict still reports the toxic-class probability as its
      confidence, not the probability of the class it chose, so that
      confidence is at most one half. */
  lemma CleanReportsToxicProbability(model: string -> Distribution, text: string)
    requires model(text).toxic <= model(text).clean
    ensures Classify(model, text).verdict == Clean
    ensures Classify(model, text).confidence == model(text).toxic
    ensures Classify(model, text).confidence == 1.0 - model(text).clean
    ensures Classify(model, text).confidence <= 0.5
  {
  }

  /** The whole result depends on the model only through the toxic-class
      probability it gives the text. */
  lemma ClassifyDependsOnToxicProbability(m1: string -> Distribution, m2: string -> Distribution, text: string)
    requires m1(text).toxic == m2(text).toxic
    ensures Classify(m1, text) == Classify(m2, text)
  {
  }

  /** The loop over the uploaded comments: one result per comment, in input
      order, each carrying its comment verbatim. */
  method ClassifyBatch(model: string -> Distribution, comments: seq<string>)
    returns (results: seq<ClassificationResult>)
    ensures |results| == |comments|
    ensures forall i :: 0 <= i < |comments| ==> results[i] == Classify(model, comments[i])
    ensures forall i :: 0 <= i < |comments| ==> results[i].comment == comments[i]
  {
    results := [];
    for i := 0 to |comments|
      invariant |results| == i
      invariant forall k :: 0 <= k < i ==> results[k] == Classify(model, comments[k])
    {
      var text := comments[i];
      var probs := model(text);
      var pred := if probs.toxic > probs.clean then 1 else 0;
      var confidence := probs.toxic;
      var verdict := if pred == 1 then Toxic else Clean;
      results := results + [ClassificationResult(text, verdict, confidence)];
    }
  }
}
