/** The bookkeeping of the skill evaluator: the log of interactions shown to
    the user, the question still pending, and the stack of skill batches that
    lets the next utterance continue a conversation. */
module SkillEvaluation {
  import opened Wrappers

  /** What the evaluator knows of a skill: its identity and the permissions
      it needs before it may run. */
  datatype SkillInfo = SkillInfo(id: string, neededPermissions: seq<string>)

  /** A skill together with the result of matching it against an input. */
  datatype SkillMatch = SkillMatch(info: SkillInfo, matchResult: int)

  /** A batch of skills pushed by an answer that expects more input. */
  type Batch = seq<SkillInfo>

  /** The output of a skill, of the error handler, or of a permission refusal. */
  datatype SkillOutput =
    | Generated(speech: string, nextSkills: seq<SkillInfo>)
    | ErrorOutput
    | MissingPermissionsOutput(skill: SkillInfo)
  {
    function NextSkills(): seq<SkillInfo> {
      if Generated? then nextSkills else []
    }
  }

  datatype QuestionAnswer = QuestionAnswer(question: Option<string>, answer: SkillOutput)

  datatype Interaction = Interaction(skill: Option<SkillInfo>, questionsAnswers: seq<QuestionAnswer>)

  datatype PendingQuestion = PendingQuestion(
    userInput: string,
    continuesLastInteraction: bool,
    skillBeingEvaluated: Option<SkillInfo>)

  datatype InteractionLog = InteractionLog(
    interactions: seq<Interaction>,
    pendingQuestion: Option<PendingQuestion>)

  datatype InputEvent =
    | ErrorEvent
    | FinalEvent(utterances: seq<string>)
    | NoneEvent
    | PartialEvent(utterance: string)

  /** What one search of the ranker gives: the best skill for the input, if
      any, and whether the ranker discarded its pushed batches because the
      input does not continue the conversation they belong to. */
  datatype Ranked = Ranked(best: Option<SkillMatch>, discardsBatches: bool)

  /** The collaborators the evaluator calls but that are not part of this
      model: the ranker's search on the current stack and its fallback, the
      permission prompt, and the chosen skill's output (None when it throws). */
  datatype Collaborators = Collaborators(
    getBest: (seq<Batch>, string) -> Ranked,
    getFallbackSkill: string -> SkillMatch,
    permissionsGranted: seq<string> -> bool,
    generateOutput: SkillMatch -> Option<SkillOutput>)

  datatype EvaluationError = IndexOutOfBounds

  /** The input chosen for evaluation, the skill chosen for it, whether
      that skill is the fallback, and the ranker's stack after the search. */
  datatype Choice = Choice(input: string, skill: SkillMatch, isFallback: bool, batches: seq<Batch>)

  /* ----- The interaction log ----- */

  /** Whether the answer about to be logged continues the last interaction:
      the pending question says so, and without one the stack decides. */
  function Continues(log: InteractionLog, hasAnyBatches: bool): bool {
    match log.pendingQuestion
    case Some(p) => p.continuesLastInteraction
    case None => hasAnyBatches
  }

  function PendingInput(log: InteractionLog): Option<string> {
    match log.pendingQuestion
    case Some(p) => Some(p.userInput)
    case None => None
  }

  function PendingSkill(log: InteractionLog): Option<SkillInfo> {
    match log.pendingQuestion
    case Some(p) => p.skillBeingEvaluated
    case None => None
  }

  /** The log after answering the pending question with `output`: the
      answer joins the last interaction when it continues it, and otherwise
      opens a new one; nothing is pending afterwards. */
  function AddInteraction(log: InteractionLog, hasAnyBatches: bool, output: SkillOutput)
    : (r: InteractionLog)
    ensures r.pendingQuestion.None?
    ensures var qa := QuestionAnswer(PendingInput(log), output);
      var n := |log.interactions|;
      if Continues(log, hasAnyBatches) && n > 0 then
        && |r.interactions| == n
        && r.interactions[..n - 1] == log.interactions[..n - 1]
        && r.interactions[n - 1].skill == log.interactions[n - 1].skill
        && r.interactions[n - 1].questionsAnswers == log.interactions[n - 1].questionsAnswers + [qa]
      else
        && |r.interactions| == n + 1
        && r.interactions[..n] == log.interactions
        && r.interactions[n] == Interaction(PendingSkill(log), [qa])
  {
    var qa := QuestionAnswer(PendingInput(log), output);
    var inters := log.interactions;
    var n := |inters|;
    InteractionLog(
      if Continues(log, hasAnyBatches) && n > 0 then
        inters[n - 1 := inters[n - 1].(questionsAnswers := inters[n - 1].questionsAnswers + [qa])]
      else
        inters + [Interaction(PendingSkill(log), [qa])],
      None)
  }

  /** Every question and answer of the log, oldest first. */
  function Transcript(inters: seq<Interaction>): seq<QuestionAnswer> {
    if |inters| == 0 then []
    else Transcript(inters[..|inters| - 1]) + inters[|inters| - 1].questionsAnswers
  }

  /** The log is append-only: adding an interaction adds exactly one
      question and answer to the transcript, at its end. */
  lemma AddInteractionAppendsToTranscript(log: InteractionLog, hasAnyBatches: bool,
                                          output: SkillOutput)
    ensures Transcript(AddInteraction(log, hasAnyBatches, output).interactions)
            == Transcript(log.interactions) + [QuestionAnswer(PendingInput(log), output)]
  {
  }

  /* ----- Choosing the skill ----- */

  /** The stack after one search of the ranker. */
  function AfterSearch(stack: seq<Batch>, ranked: Ranked): seq<Batch> {
    if ranked.discardsBatches then [] else stack
  }

  /** The stack when the i-th utterance is searched: each earlier search may
      have discarded it, and nothing is pushed during the search. */
  function StackAt(stack: seq<Batch>, utterances: seq<string>,
                   getBest: (seq<Batch>, string) -> Ranked, i: nat): (r: seq<Batch>)
    requires i <= |utterances|
    ensures r == stack || r == []
    decreases i
  {
    if i == 0 then stack
    else
      var before := StackAt(stack, utterances, getBest, i - 1);
      AfterSearch(before, getBest(before, utterances[i - 1]))
  }

  /** The best skill for the j-th utterance, searched on the stack left by
      the earlier searches. */
  function BestAt(stack: seq<Batch>, utterances: seq<string>,
                  getBest: (seq<Batch>, string) -> Ranked, j: nat): Option<SkillMatch>
    requires j < |utterances|
  {
    getBest(StackAt(stack, utterances, getBest, j), utterances[j]).best
  }

  /** Some skill matches the j-th utterance. */
  predicate Hit(stack: seq<Batch>, utterances: seq<string>,
                getBest: (seq<Batch>, string) -> Ranked, j: nat)
    requires j < |utterances|
  {
    BestAt(stack, utterances, getBest, j).Some?
  }

  /** The index of the first utterance from i on that some skill matches. */
  function FirstMatch(stack: seq<Batch>, utterances: seq<string>,
                      getBest: (seq<Batch>, string) -> Ranked, i: nat)
    : (r: Option<nat>)
    requires i <= |utterances|
    ensures r.Some? ==>
      && i <= r.value < |utterances|
      && Hit(stack, utterances, getBest, r.value)
      && forall j :: i <= j < r.value ==> !Hit(stack, utterances, getBest, j)
    ensures r.None? ==> forall j :: i <= j < |utterances| ==> !Hit(stack, utterances, getBest, j)
    decreases |utterances| - i
  {
    if i == |utterances| then None
    else if Hit(stack, utterances, getBest, i) then Some(i)
    else FirstMatch(stack, utterances, getBest, i + 1)
  }

  /** The first utterance that some skill matches, with that skill; if none
      does, the first utterance with the fallback skill. An empty list of
      utterances has no first one. The searches stop at the first match, so
      the stack is the one the last search performed left behind. */
  function ChooseSkill(stack: seq<Batch>, utterances: seq<string>,
                       getBest: (seq<Batch>, string) -> Ranked,
                       getFallbackSkill: string -> SkillMatch)
    : (r: Result<Choice, EvaluationError>)
    ensures r.Failure? <==> |utterances| == 0
    ensures r.Success? ==> r.value.batches == stack || r.value.batches == []
    ensures r.Success? && !r.value.isFallback ==>
      exists k :: 0 <= k < |utterances|
        && utterances[k] == r.value.input
        && BestAt(stack, utterances, getBest, k) == Some(r.value.skill)
        && r.value.batches == StackAt(stack, utterances, getBest, k + 1)
        && forall j :: 0 <= j < k ==> !Hit(stack, utterances, getBest, j)
    ensures r.Success? && r.value.isFallback ==>
      && r.value.input == utterances[0]
      && r.value.skill == getFallbackSkill(utterances[0])
      && r.value.batches == StackAt(stack, utterances, getBest, |utterances|)
      && forall j :: 0 <= j < |utterances| ==> !Hit(stack, utterances, getBest, j)
  {
    var first := FirstMatch(stack, utterances, getBest, 0);
    if first.Some? then
      var k := first.value;
      Success(Choice(utterances[k], BestAt(stack, utterances, getBest, k).value, false,
                     StackAt(stack, utterances, getBest, k + 1)))
    else if |utterances| == 0 then Failure(IndexOutOfBounds)
    else
      Success(Choice(utterances[0], getFallbackSkill(utterances[0]), true,
                     StackAt(stack, utterances, getBest, |utterances|)))
  }

  /* ----- The batch stack ----- */

  /** The stack after a skill answered: an answer that asks for more input
      pushes its skills as one batch; otherwise the conversation ends and the
      stack is reset, unless the answer came from the fallback skill. */
  function AfterOutput(stack: seq<Batch>, nextSkills: Batch, isFallback: bool): (r: seq<Batch>)
    ensures r == [] || r == stack || (r == stack + [nextSkills] && |nextSkills| > 0)
    ensures |r| > 0 <==> |nextSkills| > 0 || (isFallback && |stack| > 0)
    ensures isFallback && |nextSkills| == 0 ==> r == stack
    ensures |nextSkills| > 0 ==> r == stack + [nextSkills]
    ensures |nextSkills| == 0 && !isFallback ==> r == []
  {
    if |nextSkills| == 0 then
      if isFallback then stack else []
    else
      stack + [nextSkills]
  }

  /** Evaluation of one list of utterances: the new log and the new stack.
      Whether the answer continues the last interaction is read from the
      stack as the search left it. */
  function Evaluate(log: InteractionLog, stack: seq<Batch>, utterances: seq<string>,
                    env: Collaborators): (r: (InteractionLog, seq<Batch>))
    ensures r.0.pendingQuestion.None?
    ensures |utterances| == 0 ==> r.1 == stack
    ensures r.1 == [] || r.1 == stack
            || (|r.1| > 0 && |r.1[|r.1| - 1]| > 0
                && (r.1[..|r.1| - 1] == stack || r.1[..|r.1| - 1] == []))
  {
    match ChooseSkill(stack, utterances, env.getBest, env.getFallbackSkill)
    case Failure(_) =>
      (AddInteraction(log, |stack| > 0, ErrorOutput), stack)
    case Success(c) =>
      var hasAnyBatches := |c.batches| > 0;
      var pending := log.(pendingQuestion :=
        Some(PendingQuestion(c.input, hasAnyBatches, Some(c.skill.info))));
      var permissions := c.skill.info.neededPermissions;
      if |permissions| > 0 && !env.permissionsGranted(permissions) then
        (AddInteraction(pending, hasAnyBatches, MissingPermissionsOutput(c.skill.info)), c.batches)
      else
        match env.generateOutput(c.skill)
        case None => (AddInteraction(pending, hasAnyBatches, ErrorOutput), c.batches)
        case Some(output) =>
          (AddInteraction(pending, hasAnyBatches, output),
           AfterOutput(c.batches, output.NextSkills(), c.isFallback))
  }

  /** Every evaluation answers one question, leaves nothing pending, and
      changes the stack only through the search and the answer: the stack is
      the one the search left, updated by AfterOutput when the chosen skill
      produced an output. The question logged is the chosen utterance, or the
      pending one if none could be chosen; the answer logged is the refusal
      when the permissions are denied, an error when no utterance could be
      chosen or the output could not be generated, and the skill's own output
      otherwise. (An exception thrown while the
      output is spoken or its next skills are computed is not modelled; it
      would log a second, error answer.) */
  lemma EvaluateLaws(log: InteractionLog, stack: seq<Batch>,
                     utterances: seq<string>, env: Collaborators)
    ensures var r := Evaluate(log, stack, utterances, env); var log', stack' := r.0, r.1;
      && log'.pendingQuestion.None?
      && (|utterances| == 0 ==> stack' == stack)
      && (|utterances| > 0 ==>
            var c := ChooseSkill(stack, utterances, env.getBest, env.getFallbackSkill).value;
            var permissions := c.skill.info.neededPermissions;
            var runs := |permissions| == 0 || env.permissionsGranted(permissions);
            if runs && env.generateOutput(c.skill).Some? then
              stack' == AfterOutput(c.batches, env.generateOutput(c.skill).value.NextSkills(), c.isFallback)
            else
              stack' == c.batches)
      && var before, after := Transcript(log.interactions), Transcript(log'.interactions);
         && |after| == |before| + 1
         && after[..|before|] == before
         && (|utterances| == 0 ==> after[|before|] == QuestionAnswer(PendingInput(log), ErrorOutput))
         && (|utterances| > 0 ==>
               var c := ChooseSkill(stack, utterances, env.getBest, env.getFallbackSkill).value;
               var permissions := c.skill.info.neededPermissions;
               after[|before|] == QuestionAnswer(Some(c.input),
                 if |permissions| > 0 && !env.permissionsGranted(permissions) then
                   MissingPermissionsOutput(c.skill.info)
                 else if env.generateOutput(c.skill).None? then ErrorOutput
                 else env.generateOutput(c.skill).value))
  {
    var choice := ChooseSkill(stack, utterances, env.getBest, env.getFallbackSkill);
    if choice.Failure? {
      AddInteractionAppendsToTranscript(log, |stack| > 0, ErrorOutput);
    } else {
      var c := choice.value;
      var pending := log.(pendingQuestion :=
        Some(PendingQuestion(c.input, |c.batches| > 0, Some(c.skill.info))));
      var permissions := c.skill.info.neededPermissions;
      var output :=
        if |permissions| > 0 && !env.permissionsGranted(permissions) then MissingPermissionsOutput(c.skill.info)
        else if env.generateOutput(c.skill).None? then ErrorOutput
        else env.generateOutput(c.skill).value;
      AddInteractionAppendsToTranscript(pending, |c.batches| > 0, output);
    }
  }

  /** The answer joins the last interaction exactly when the stack the search
      left still holds batches, that is, when the input continued the
      conversation; otherwise it opens a new interaction, which belongs to the
      chosen skill. */
  lemma ContinuesIffBatchesKept(log: InteractionLog, stack: seq<Batch>,
                                utterances: seq<string>, env: Collaborators)
    requires |utterances| > 0
    ensures var c := ChooseSkill(stack, utterances, env.getBest, env.getFallbackSkill).value;
      var log' := Evaluate(log, stack, utterances, env).0;
      && |log'.interactions|
         == |log.interactions| + (if |c.batches| > 0 && |log.interactions| > 0 then 0 else 1)
      && (|log'.interactions| > |log.interactions| ==>
            log'.interactions[|log.interactions|].skill == Some(c.skill.info))
  {
  }

  /** A final event first records its first utterance as pending; once a
      skill is chosen that record is replaced, so it leaves no trace. */
  lemma EvaluateIgnoresEarlierPending(log: InteractionLog, stack: seq<Batch>, utterances: seq<string>,
                                      env: Collaborators, p: PendingQuestion)
    requires |utterances| > 0
    ensures Evaluate(log.(pendingQuestion := Some(p)), stack, utterances, env)
            == Evaluate(log, stack, utterances, env)
  {
  }

  /* ----- The objects ----- */

  /** The ranker's stack of batches above the default one. */
  class SkillRanker {
    var batches: seq<Batch>

    constructor ()
      ensures batches == []
    {
      batches := [];
    }

    /** Whether a batch is pushed above the default one. */
    function HasAnyBatches(): (r: bool)
      reads this
      ensures r <==> batches != []
    {
      |batches| > 0
    }

    method AddBatchToTop(batch: Batch)
      modifies this
      ensures batches == old(batches) + [batch]
    {
      batches := batches + [batch];
    }

    method RemoveAllBatches()
      modifies this
      ensures batches == []
    {
      batches := [];
    }

    /** One search for the best skill for `input` on the current stack; the
        ranker discards its pushed batches when the search says so. */
    method GetBest(input: string, rank: (seq<Batch>, string) -> Ranked)
      returns (best: Option<SkillMatch>)
      modifies this
      ensures best == rank(old(batches), input).best
      ensures batches == AfterSearch(old(batches), rank(old(batches), input))
    {
      var ranked := rank(batches, input);
      if ranked.discardsBatches {
        RemoveAllBatches();
      }
      best := ranked.best;
    }
  }

  class SkillEvaluator {
    var state: InteractionLog
    const skillRanker: SkillRanker

    constructor ()
      ensures state == InteractionLog([], None)
      ensures fresh(skillRanker) && skillRanker.batches == []
    {
      state := InteractionLog([], None);
      skillRanker := new SkillRanker();
    }

    method AddInteractionFromPending(skillOutput: SkillOutput)
      modifies this
      ensures state == AddInteraction(old(state), skillRanker.HasAnyBatches(), skillOutput)
    {
      var log := state;
      var pendingUserInput := if log.pendingQuestion.Some? then Some(log.pendingQuestion.value.userInput) else None;
      var pendingContinuesLastInteraction := if log.pendingQuestion.Some?
        then log.pendingQuestion.value.continuesLastInteraction
        else skillRanker.HasAnyBatches();
      var pendingSkill := if log.pendingQuestion.Some? then log.pendingQuestion.value.skillBeingEvaluated else None;
      var questionAnswer := QuestionAnswer(pendingUserInput, skillOutput);

      var inters := log.interactions;
      if pendingContinuesLastInteraction && |inters| > 0 {
        var last := inters[|inters| - 1];
        inters := inters[|inters| - 1 := last.(questionsAnswers := last.questionsAnswers + [questionAnswer])];
      } else {
        inters := inters + [Interaction(pendingSkill, [questionAnswer])];
      }
      state := log.(interactions := inters, pendingQuestion := None);
    }

    method AddErrorInteractionFromPending()
      modifies this
      ensures state == AddInteraction(old(state), skillRanker.HasAnyBatches(), ErrorOutput)
    {
      AddInteractionFromPending(ErrorOutput);
    }

    method EvaluateMatchingSkill(utterances: seq<string>, env: Collaborators)
      modifies this, skillRanker
      ensures (state, skillRanker.batches)
              == Evaluate(old(state), old(skillRanker.batches), utterances, env)
    {
      ghost var stack := skillRanker.batches;
      var found: Option<SkillMatch> := None;
      var i := 0;
      while i < |utterances| && found.None?
        invariant 0 <= i <= |utterances|
        invariant state == old(state)
        invariant skillRanker.batches == StackAt(stack, utterances, env.getBest, i)
        invariant found.None? ==> forall j :: 0 <= j < i ==> !Hit(stack, utterances, env.getBest, j)
        invariant found.Some? ==>
          && 0 < i
          && found == BestAt(stack, utterances, env.getBest, i - 1)
          && forall j :: 0 <= j < i - 1 ==> !Hit(stack, utterances, env.getBest, j)
        decreases |utterances| - i
      {
        found := skillRanker.GetBest(utterances[i], env.getBest);
        i := i + 1;
      }

      var chosenInput: string, chosenSkill: SkillMatch, isFallback: bool;
      if found.Some? {
        chosenInput, chosenSkill, isFallback := utterances[i - 1], found.value, false;
        assert Hit(stack, utterances, env.getBest, i - 1);
        assert FirstMatch(stack, utterances, env.getBest, 0) == Some(i - 1);
      } else if |utterances| == 0 {
        AddErrorInteractionFromPending();
        return;
      } else {
        chosenInput, chosenSkill, isFallback := utterances[0], env.getFallbackSkill(utterances[0]), true;
      }
      assert ChooseSkill(stack, utterances, env.getBest, env.getFallbackSkill)
             == Success(Choice(chosenInput, chosenSkill, isFallback, skillRanker.batches));
      var skillInfo := chosenSkill.info;

      state := state.(pendingQuestion := Some(PendingQuestion(
        chosenInput, skillRanker.HasAnyBatches(), Some(skillInfo))));

      var permissions := skillInfo.neededPermissions;
      if |permissions| > 0 && !env.permissionsGranted(permissions) {
        AddInteractionFromPending(MissingPermissionsOutput(skillInfo));
        return;
      }

      var output := env.generateOutput(chosenSkill);
      if output.None? {
        AddErrorInteractionFromPending();
        return;
      }
      AddInteractionFromPending(output.value);

      var nextSkills := output.value.NextSkills();
      if |nextSkills| == 0 {
        if !isFallback {
          skillRanker.RemoveAllBatches();
        }
      } else {
        skillRanker.AddBatchToTop(nextSkills);
      }
    }

    method ProcessInputEvent(event: InputEvent, env: Collaborators)
      requires event.FinalEvent? ==> |event.utterances| > 0
      modifies this, skillRanker
      ensures event.ErrorEvent? ==>
        && state == AddInteraction(old(state), old(skillRanker.HasAnyBatches()), ErrorOutput)
        && skillRanker.batches == old(skillRanker.batches)
      ensures event.FinalEvent? ==>
        (state, skillRanker.batches) == Evaluate(
          old(state).(pendingQuestion := Some(PendingQuestion(
            event.utterances[0], old(skillRanker.HasAnyBatches()), None))),
          old(skillRanker.batches), event.utterances, env)
      ensures event.NoneEvent? ==>
        && state == old(state).(pendingQuestion := None)
        && skillRanker.batches == old(skillRanker.batches)
      ensures event.PartialEvent? ==>
        && state == old(state).(pendingQuestion := Some(PendingQuestion(
             event.utterance, old(skillRanker.HasAnyBatches()), None)))
        && skillRanker.batches == old(skillRanker.batches)
    {
      match event
      case ErrorEvent =>
        AddErrorInteractionFromPending();
      case FinalEvent(utterances) =>
        state := state.(pendingQuestion := Some(PendingQuestion(
          utterances[0], skillRanker.HasAnyBatches(), None)));
        EvaluateMatchingSkill(utterances, env);
      case NoneEvent =>
        state := state.(pendingQuestion := None);
      case PartialEvent(utterance) =>
        state := state.(pendingQuestion := Some(PendingQuestion(
          utterance, skillRanker.HasAnyBatches(), None)));
    }
  }
}
