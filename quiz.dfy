/**
 * The Quiz of Mithras: seven stages in a fixed order. An answer is judged
 * against the current stage at once; a step queued 2000 ms later hides the
 * verdict and, if that answer was right, moves on by one stage.
 */
module Quiz {
  import opened Wrappers

  /** A stage; its icon image is presentation and not part of the model. */
  datatype Stage = Stage(name: string, symbol: string, question: string, options: seq<string>, answer: string)

  const Stages: seq<Stage> := [
    Stage("Corax", "🐦", "What creature is associated with the Corax stage?", ["Crow", "Bull", "Lion"], "Crow"),
    Stage("Nymphus", "💍", "What does the Nymphus stage represent?", ["Sun", "War", "Marriage"], "Marriage"),
    Stage("Miles", "⚔️", "What is a Miles in Mithraism?", ["A farmer", "A priest", "A soldier"], "A soldier"),
    Stage("Leo", "🦁", "Which element is associated with Leo?", ["Fire", "Water", "Earth"], "Fire"),
    Stage("Perses", "🌑", "What does Perses symbolize?", ["Moon", "Star Wisdom", "Darkness"], "Star Wisdom"),
    Stage("Heliodromus", "☀️", "What is the role of Heliodromus?", ["Bull Slayer", "Moon Watcher", "Sun Runner"], "Sun Runner"),
    Stage("Pater", "🧙", "What happens at the Pater stage?", ["War", "Sacrifice", "Enlightenment"], "Enlightenment")
  ]

  /** Every stage offers three options, and its answer is one of them. */
  lemma AnswersAreOptions()
    ensures |Stages| == 7
    ensures forall i :: 0 <= i < |Stages| ==> |Stages[i].options| == 3 && Stages[i].answer in Stages[i].options
  {
  }

  /** Number of `true` entries. */
  function CountTrue(s: seq<bool>): (c: nat)
    ensures c <= |s|
  {
    if s == [] then 0 else (if s[0] then 1 else 0) + CountTrue(s[1..])
  }

  /** What the screen shows: the stepper and the current question, or the final screen. */
  datatype QuizView = Question(stage: Stage, steps: seq<bool>, connectors: seq<bool>) | Final

  /**
   * Step `i` of the stepper is drawn active when `i <= stageIndex`; the
   * connector after step `i` (there is none after the last) when `i < stageIndex`.
   */
  function View(stageIndex: nat): (v: QuizView)
    ensures v.Question? <==> stageIndex < |Stages|
    ensures v.Question? ==>
      && v.stage == Stages[stageIndex]
      && |v.steps| == |Stages| && |v.connectors| == |Stages| - 1
      && (forall i :: 0 <= i < |v.steps| ==> (v.steps[i] <==> i <= stageIndex))
      && (forall i :: 0 <= i < |v.connectors| ==> (v.connectors[i] <==> i < stageIndex))
  {
    if stageIndex < |Stages| then
      Question(Stages[stageIndex], seq(|Stages|, i => i <= stageIndex), seq(|Stages| - 1, i => i < stageIndex))
    else
      Final
  }

  /** A run of `m` leading `true`s among `n` entries has `min(n, m)` of them. */
  lemma {:induction false} CountLeading(s: seq<bool>, m: nat)
    requires forall i :: 0 <= i < |s| ==> (s[i] <==> i < m)
    ensures CountTrue(s) == if m < |s| then m else |s|
  {
    if s != [] {
      var t := s[1..];
      if m > 0 {
        forall i | 0 <= i < |t| ensures t[i] <==> i < m - 1 {
          assert t[i] == s[i + 1];
        }
        CountLeading(t, m - 1);
      } else {
        forall i | 0 <= i < |t| ensures t[i] <==> i < 0 {
          assert t[i] == s[i + 1];
        }
        CountLeading(t, 0);
      }
    }
  }

  /**
   * While a question is shown, the stepper lights exactly `stageIndex + 1`
   * steps (the passed ones and the current one) and `stageIndex` connectors.
   */
  lemma StepperProgress(stageIndex: nat)
    requires stageIndex < |Stages|
    ensures CountTrue(View(stageIndex).steps) == stageIndex + 1
    ensures CountTrue(View(stageIndex).connectors) == stageIndex
  {
    var v := View(stageIndex);
    CountLeading(v.steps, stageIndex + 1);
    CountLeading(v.connectors, stageIndex);
  }

  class QuizOfMithras {
    var stageIndex: nat
    var showResult: bool
    /** The verdict on the last answer; `None` before the first one. */
    var isCorrect: Option<bool>
    /** The deferred steps not yet run, oldest first, each with the verdict of its own answer. */
    var pending: seq<bool>

    /** The stage index plus the advances still queued does not pass the last stage. */
    ghost predicate WithinStages()
      reads this
    {
      stageIndex + CountTrue(pending) <= |Stages|
    }

    constructor ()
      ensures stageIndex == 0 && !showResult && isCorrect == None && pending == []
      ensures WithinStages()
    {
      stageIndex := 0;
      showResult := false;
      isCorrect := None;
      pending := [];
    }

    /**
     * `handleAnswer`: the options are on screen only while a question is,
     * so `stageIndex` names a stage. The verdict is shown at once and a step
     * carrying it is queued; the stage does not change yet. Nothing stops a
     * second answer while a step is queued.
     */
    method HandleAnswer(option: string)
      requires stageIndex < |Stages|
      modifies this
      ensures isCorrect == Some(option == Stages[old(stageIndex)].answer) && showResult
      ensures pending == old(pending) + [option == Stages[old(stageIndex)].answer]
      ensures stageIndex == old(stageIndex)
      ensures old(pending) == [] ==> WithinStages()
      ensures old(WithinStages()) && option != Stages[old(stageIndex)].answer ==> WithinStages()
    {
      var correct := option == Stages[stageIndex].answer;
      isCorrect := Some(correct);
      showResult := true;
      CountAppend(pending, correct);
      pending := pending + [correct];
    }

    /** The oldest queued step runs: it hides the verdict and advances by one exactly when its answer was right. */
    method Step()
      requires pending != []
      modifies this
      ensures stageIndex == old(stageIndex) + (if old(pending[0]) then 1 else 0)
      ensures !showResult && isCorrect == old(isCorrect) && pending == old(pending[1..])
      ensures stageIndex >= old(stageIndex)
      ensures old(WithinStages()) ==> WithinStages() && stageIndex <= |Stages|
    {
      if pending[0] {
        stageIndex := stageIndex + 1;
      }
      showResult := false;
      pending := pending[1..];
    }
  }

  /** Appending one verdict adds one to the count exactly when it is `true`. */
  lemma {:induction false} CountAppend(s: seq<bool>, b: bool)
    ensures CountTrue(s + [b]) == CountTrue(s) + (if b then 1 else 0)
  {
    if s != [] {
      assert (s + [b])[1..] == s[1..] + [b];
      CountAppend(s[1..], b);
    }
  }

  /**
   * The race: two right answers on the last stage before its step has run
   * queue two advances, and the index ends one past the number of stages.
   */
  method DoubleTapScenario()
  {
    var quiz := new QuizOfMithras();
    while quiz.stageIndex < |Stages| - 1
      invariant quiz.stageIndex <= |Stages| - 1 && quiz.pending == []
      modifies quiz
      decreases |Stages| - quiz.stageIndex
    {
      quiz.HandleAnswer(Stages[quiz.stageIndex].answer);
      quiz.Step();
    }
    quiz.HandleAnswer("Enlightenment");
    quiz.HandleAnswer("Enlightenment");
    quiz.Step();
    quiz.Step();
    assert quiz.stageIndex == |Stages| + 1;
    assert View(quiz.stageIndex) == Final;
  }

  /**
   * The race on any stage: two right answers on the first stage before its
   * step has run take the index to 2, so the question of the second stage is
   * never asked; a third right answer takes it to 3.
   */
  method SkipStageScenario()
  {
    var quiz := new QuizOfMithras();
    quiz.HandleAnswer(Stages[0].answer);
    quiz.HandleAnswer(Stages[0].answer);
    quiz.HandleAnswer(Stages[0].answer);
    quiz.Step();
    assert quiz.stageIndex == 1;
    quiz.Step();
    assert quiz.stageIndex == 2;
    quiz.Step();
    assert quiz.stageIndex == 3;
  }
}
