/**
  The keyword heuristic the interpretability smoke test applies to each
  generated continuation (`analyze_symbolic_consistency`). Three ordered
  rules look for substrings of the lower-cased prompt and continuation; the
  first that fires gives the advisory note, and none firing gives no note.
 */
module Consistency {
  import opened Wrappers
  import opened Text

  /** The notes the heuristic can produce. */
  datatype Note = LogicalStructure | SequencePattern | MathematicalReasoning {

    /** The text the smoke test prints and logs for the note. */
    function Message(): string {
      match this
      case LogicalStructure => "Logical structure maintained"
      case SequencePattern => "Sequence pattern detected"
      case MathematicalReasoning => "Mathematical reasoning maintained"
    }
  }

  /** The printed message tells the notes apart. */
  lemma MessageInjective(a: Note, b: Note)
    requires a.Message() == b.Message()
    ensures a == b
  {
    assert |LogicalStructure.Message()| == 28;
    assert |SequencePattern.Message()| == 25;
    assert |MathematicalReasoning.Message()| == 33;
  }

  /** Words in a continuation that carry a conditional to its consequence. */
  const ConclusionWords: seq<string> := ["then", "therefore", "so"]
  /** Beginnings of well-known sequences looked for in the prompt. */
  const SequenceMarkers: seq<string> := ["a b c", "1 2 3", "monday tuesday"]
  /** Arithmetic vocabulary looked for in the prompt. */
  const MathWords: seq<string> := ["equals", "+", "-", "plus", "minus"]
  /** Words in a continuation that state a result. */
  const ResultWords: seq<string> := ["=", "equals", "is"]

  /** `word` occurs somewhere in `text`, ignoring the case of ASCII letters. */
  ghost predicate Mentions(text: string, word: string) {
    exists i :: OccursAt(word, Lower(text), i)
  }

  /** Some word of `words` occurs in `text`, ignoring case. */
  ghost predicate MentionsSome(text: string, words: seq<string>) {
    exists k :: 0 <= k < |words| && Mentions(text, words[k])
  }

  /** Rule 1: the prompt is an if-then and the continuation draws a conclusion. */
  ghost predicate LogicalCue(prompt: string, generated: string) {
    Mentions(prompt, "if") && Mentions(prompt, "then") && MentionsSome(generated, ConclusionWords)
  }

  /** Rule 2: the prompt starts a familiar sequence (the continuation is not looked at). */
  ghost predicate SequenceCue(prompt: string) {
    MentionsSome(prompt, SequenceMarkers)
  }

  /** Rule 3: the prompt talks arithmetic and the continuation states a result. */
  ghost predicate MathCue(prompt: string, generated: string) {
    MentionsSome(prompt, MathWords) && MentionsSome(generated, ResultWords)
  }

  /**
    `analyze_symbolic_consistency(prompt, generated_text)`: the rules are
    tried in order and the first that fires decides the note.
   */
  function Analyze(prompt: string, generated: string): (r: Option<Note>)
    ensures r == Some(LogicalStructure) <==> LogicalCue(prompt, generated)
    ensures r == Some(SequencePattern) <==> !LogicalCue(prompt, generated) && SequenceCue(prompt)
    ensures r == Some(MathematicalReasoning) <==>
              !LogicalCue(prompt, generated) && !SequenceCue(prompt) && MathCue(prompt, generated)
    ensures r == None <==>
              !LogicalCue(prompt, generated) && !SequenceCue(prompt) && !MathCue(prompt, generated)
  {
    var p := Lower(prompt);
    var g := Lower(generated);
    if Contains(p, "if") && Contains(p, "then") && ContainsAny(g, ConclusionWords) then
      Some(LogicalStructure)
    else if ContainsAny(p, SequenceMarkers) then
      Some(SequencePattern)
    else if ContainsAny(p, MathWords) && ContainsAny(g, ResultWords) then
      Some(MathematicalReasoning)
    else
      None
  }

  /** The heuristic ignores the case of ASCII letters in both texts. */
  lemma AnalyzeIgnoresCase(p1: string, g1: string, p2: string, g2: string)
    requires SameIgnoringCase(p1, p2) && SameIgnoringCase(g1, g2)
    ensures Analyze(p1, g1) == Analyze(p2, g2)
  {
    LowerOfSameIgnoringCase(p1, p2);
    LowerOfSameIgnoringCase(g1, g2);
  }

  /** Analysing the already lower-cased texts gives the same note. */
  lemma AnalyzeOfLowered(prompt: string, generated: string)
    ensures Analyze(Lower(prompt), Lower(generated)) == Analyze(prompt, generated)
  {
    LowerIdempotent(prompt);
    LowerIdempotent(generated);
  }

  /**
    Rule 2 looks at the prompt alone: when it fires and rule 1 cannot (the
    prompt never says "if"), every continuation gets the same note.
   */
  lemma SequenceIgnoresContinuation(prompt: string, g1: string, g2: string)
    requires SequenceCue(prompt) && !Mentions(prompt, "if")
    ensures Analyze(prompt, g1) == Analyze(prompt, g2) == Some(SequencePattern)
  {
  }

  /** A capitalised if-then prompt with a concluding continuation. */
  lemma LogicalExample(prompt: string, generated: string)
    requires prompt == "If it rains then" && generated == "so it is wet"
    ensures Analyze(prompt, generated) == Some(LogicalStructure)
  {
    var p, g := Lower(prompt), Lower(generated);
    assert p == "if it rains then";
    assert g == generated;
    assert OccursAt("if", p, 0) && OccursAt("then", p, 12);
    assert OccursAt(ConclusionWords[2], g, 0);
  }

  /** A prompt that starts the days of the week; it has no "if", so rule 1 cannot fire. */
  lemma SequenceExample(prompt: string, generated: string)
    requires prompt == "Monday Tuesday" && generated == "wednesday"
    ensures Analyze(prompt, generated) == Some(SequencePattern)
  {
    var p := Lower(prompt);
    assert p == "monday tuesday";
    assert !Mentions(prompt, "if") by {
      AbsentFirstChar(p, "if");
    }
    assert SequenceCue(prompt) by {
      assert OccursAt(SequenceMarkers[2], p, 0);
    }
    SequenceIgnoresContinuation(prompt, generated, generated);
  }

  /**
    An arithmetic prompt with a continuation that states a result; the prompt
    has neither "if" nor the start of a known sequence, so only rule 3 fires.
   */
  lemma MathExample(prompt: string, generated: string)
    requires prompt == "2 Plus 2" && generated == "is 4"
    ensures Analyze(prompt, generated) == Some(MathematicalReasoning)
  {
    assert !Mentions(prompt, "if") && !SequenceCue(prompt) by {
      var p := Lower(prompt);
      assert p == "2 plus 2";
      AbsentFirstChar(p, "if");
      AbsentFirstChar(p, SequenceMarkers[0]);
      AbsentFirstChar(p, SequenceMarkers[1]);
      AbsentFirstChar(p, SequenceMarkers[2]);
      assert forall k :: 0 <= k < |SequenceMarkers| ==> !Contains(p, SequenceMarkers[k]);
    }
    assert MathCue(prompt, generated) by {
      assert Lower(prompt) == "2 plus 2";
      assert Lower(generated) == generated;
      assert OccursAt(MathWords[3], Lower(prompt), 2);
      assert OccursAt(ResultWords[2], Lower(generated), 0);
    }
  }
}
