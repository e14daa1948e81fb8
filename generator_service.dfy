/**
 * The calculator-generation conversation: a requirements dialogue, then a
 * generated definition that is validated (and, when invalid, repaired once
 * and validated again), then a draft awaiting the user's approval.
 *
 * The language-model agents are not modelled: each call's reply is a
 * parameter (AgentReplies), so every possible reply is covered. Timestamps
 * and conversation ids come from the caller.
 */
module GeneratorService {
  import opened Wrappers
  import opened Text
  import opened CalculatorEngine

  datatype ConversationState = Eliciting | Generating | Validating | AwaitingApproval | Completed

  datatype Role = UserRole | AssistantRole

  datatype Message = Message(role: Role, content: string)

  datatype Conversation = Conversation(
    state: ConversationState,
    description: string,
    category: Option<string>,
    jurisdiction: string,
    messages: seq<Message>,
    requirements: Option<string>,
    draft: Option<CalculatorDefinition>,
    validationErrors: seq<string>)

  /** The elicitation agent's reply; requirements are present once it judges them complete. */
  datatype Elicitation = Elicitation(message: string, requirements: Option<string>)

  /**
   * What the agents answer during one call: the elicitation reply, the
   * generated definition or the generator's error, the semantic verdict on
   * it (None when valid, else the issues listed), the repaired definition or
   * the repair's error, and the verdict on the repaired definition.
   */
  datatype AgentReplies = AgentReplies(
    elicitation: Elicitation,
    generated: Result<CalculatorDefinition, string>,
    verdict: Option<seq<string>>,
    healed: Result<CalculatorDefinition, string>,
    reverdict: Option<seq<string>>)

  datatype Validation = Validation(valid: bool, errors: seq<string>)

  datatype Response = Response(
    conversationId: string,
    state: ConversationState,
    messages: seq<Message>,
    draft: Option<CalculatorDefinition>,
    validationErrors: seq<string>,
    isComplete: bool)

  // ------------------------------------------------------------ validation

  function StepIds(def: CalculatorDefinition): set<string> {
    set s | s in def.steps :: s.id
  }

  function DanglingMessage(output: string): string {
    "Output '" + output + "' references non-existent step"
  }

  /** One message per listed output that names no step, in list order. */
  function OutputErrors(outputs: seq<string>, ids: set<string>): seq<string> {
    if outputs == [] then []
    else
      var last := outputs[|outputs| - 1];
      OutputErrors(outputs[..|outputs| - 1], ids) + (if last in ids then [] else [DanglingMessage(last)])
  }

  /**
   * run_validation_agent: the structural check first; only a definition that
   * passes it goes to the semantic check, whose verdict is the parameter.
   */
  function ValidationOf(def: CalculatorDefinition, verdict: Option<seq<string>>): (v: Validation)
    ensures v.valid <==> v.errors == [] && verdict.None?
    ensures verdict.Some? && verdict.value == [] ==> !v.valid
  {
    var errors := OutputErrors(def.outputs, StepIds(def));
    if errors != [] then Validation(false, errors)
    else if verdict.None? then Validation(true, [])
    else Validation(false, verdict.value)
  }

  method ValidateDefinition(def: CalculatorDefinition, verdict: Option<seq<string>>) returns (v: Validation)
    ensures v == ValidationOf(def, verdict)
  {
    var errors: seq<string> := [];
    var ids := StepIds(def);
    var i := 0;
    while i < |def.outputs|
      invariant 0 <= i <= |def.outputs|
      invariant errors == OutputErrors(def.outputs[..i], ids)
    {
      assert def.outputs[..i + 1][..i] == def.outputs[..i];
      if def.outputs[i] !in ids {
        errors := errors + [DanglingMessage(def.outputs[i])];
      }
      i := i + 1;
    }
    assert def.outputs[..i] == def.outputs;
    if errors != [] {
      return Validation(false, errors);
    }
    if verdict.None? {
      return Validation(true, []);
    }
    return Validation(false, verdict.value);
  }

  // ------------------------------------------------------------ message texts

  const TroubleOpening := "I had trouble generating the calculator: "
  const TroubleClosing := ". Could you provide more details?"

  function GenerationTrouble(error: string): string {
    TroubleOpening + error + TroubleClosing
  }

  function Bullets(items: seq<string>): (r: seq<string>)
    ensures |r| == |items|
  {
    if items == [] then [] else ["- " + items[0]] + Bullets(items[1..])
  }

  const IssuesOpening := "I generated a calculator but found some technical issues:\n"
  const IssuesClosing := "\n\nI'll try to fix these automatically."

  function IssuesMessage(errors: seq<string>): string {
    IssuesOpening + Join(Bullets(errors), "\n") + IssuesClosing
  }

  function InputLines(inputs: seq<CalculatorInput>): seq<string> {
    if inputs == [] then [] else ["- " + inputs[0].labelText + " (" + inputs[0].key + ")"] + InputLines(inputs[1..])
  }

  const PreviewInputsHeading := "*\n\n**Inputs:**\n"
  const PreviewOutputsHeading := "\n\n**Outputs:**\n"
  const PreviewClosing := "\n\nDoes this look correct? Reply \"approve\" to save, or provide feedback to adjust.\n"

  /** The draft as shown to the user for approval. */
  function Preview(def: CalculatorDefinition): string {
    "\n**\U{1F4CA} " + def.name + "**\n\n*" + def.description + PreviewInputsHeading + Join(InputLines(def.inputs), "\n")
    + PreviewOutputsHeading + Join(Bullets(def.outputs), "\n") + PreviewClosing
  }

  const ApprovedText := "\U{2705} Calculator approved! It's ready to be saved and activated."

  const NotFoundText := "Conversation not found. Please start a new generation request."

  /** The replies that approve a draft, compared after lower-casing. */
  const ApprovalWords: seq<string> := ["yes", "approve", "looks good", "ok", "okay"]

  /** A reply approves the draft when, lower-cased, it is one of the approval words. */
  predicate Approves(userMessage: string) {
    Lower(userMessage) in ApprovalWords
  }

  /** str() of the stored requirements. */
  function RequirementsText(requirements: Option<string>): string {
    if requirements.Some? then requirements.value else "None"
  }

  const FeedbackSeparator := "\n\nAdditional feedback: "

  /** The stored requirements with the user's feedback on a draft appended. */
  function WithFeedback(requirements: Option<string>, feedback: string): string {
    RequirementsText(requirements) + FeedbackSeparator + feedback
  }

  function Said(content: string): Message {
    Message(AssistantRole, content)
  }

  // ------------------------------------------------------------ transitions

  /** The definition put up for approval: the repaired one only when it passed re-validation. */
  function Presented(def: CalculatorDefinition, replies: AgentReplies): CalculatorDefinition {
    if !ValidationOf(def, replies.verdict).valid && replies.healed.Ok?
       && ValidationOf(replies.healed.value, replies.reverdict).valid
    then replies.healed.value
    else def
  }

  /** The validation errors kept after generation; a draft that validates leaves the earlier ones in place. */
  function ErrorsAfter(def: CalculatorDefinition, replies: AgentReplies, earlier: seq<string>): seq<string> {
    var v := ValidationOf(def, replies.verdict);
    if v.valid then earlier
    else if replies.healed.Err? then v.errors
    else
      var rv := ValidationOf(replies.healed.value, replies.reverdict);
      if rv.valid then [] else rv.errors
  }

  /**
   * _advance_to_generation on a conversation value: the requirements are
   * stored, a generated definition is always put up for approval, and a
   * generator failure returns to elicitation with the draft and errors kept.
   */
  function Advanced(c: Conversation, requirements: string, replies: AgentReplies): (a: Conversation)
    ensures a.requirements == Some(requirements)
    ensures a.description == c.description && a.category == c.category && a.jurisdiction == c.jurisdiction
    ensures replies.generated.Ok? ==> a.state == AwaitingApproval && a.draft.Some?
    ensures replies.generated.Err? ==> a.state == Eliciting && a.draft == c.draft && a.validationErrors == c.validationErrors
  {
    var c0 := c.(requirements := Some(requirements), state := Generating);
    match replies.generated
    case Err(e) => c0.(messages := c0.messages + [Said(GenerationTrouble(e))], state := Eliciting)
    case Ok(def) =>
      var invalid := !ValidationOf(def, replies.verdict).valid;
      var errors := ErrorsAfter(def, replies, c0.validationErrors);
      var issues := if invalid && errors != [] then [Said(IssuesMessage(errors))] else [];
      var presented := Presented(def, replies);
      c0.(draft := Some(presented), validationErrors := errors, state := AwaitingApproval,
          messages := c0.messages + issues + [Said(Preview(presented))])
  }

  /**
   * A new conversation after the first elicitation reply, which is its first
   * message; without complete requirements it stays eliciting with no draft.
   */
  function Started(description: string, category: Option<string>, jurisdiction: string, replies: AgentReplies): (r: Conversation)
    ensures r.description == description && r.category == category && r.jurisdiction == jurisdiction
    ensures r.messages != [] && r.messages[0] == Said(replies.elicitation.message)
    ensures replies.elicitation.requirements.None? ==>
              r.state == Eliciting && r.messages == [Said(replies.elicitation.message)] && r.requirements.None?
              && r.draft.None? && r.validationErrors == []
    ensures replies.elicitation.requirements.Some? ==> r.requirements == replies.elicitation.requirements
  {
    var c := Conversation(Eliciting, description, category, jurisdiction, [Said(replies.elicitation.message)], None, None, []);
    if replies.elicitation.requirements.Some? then
      AdvancedExtends(c, replies.elicitation.requirements.value, replies);
      Advanced(c, replies.elicitation.requirements.value, replies)
    else c
  }

  /**
   * continue_generation on a known conversation: the user's message first,
   * then the state's handling. The conversation keeps its description; a
   * transient state only logs the message; and a completed conversation
   * holds the draft it had before, the one the user approved.
   */
  function Continued(c: Conversation, userMessage: string, replies: AgentReplies): (r: Conversation)
    ensures r.description == c.description && r.category == c.category && r.jurisdiction == c.jurisdiction
    ensures c.state == Generating || c.state == Validating ==> r == c.(messages := c.messages + [Message(UserRole, userMessage)])
    ensures r.state == Completed ==> r.draft == c.draft && r.validationErrors == c.validationErrors
  {
    var c1 := c.(messages := c.messages + [Message(UserRole, userMessage)]);
    if c1.state == Eliciting then
      var c2 := c1.(messages := c1.messages + [Said(replies.elicitation.message)]);
      if replies.elicitation.requirements.Some? then Advanced(c2, replies.elicitation.requirements.value, replies) else c2
    else if c1.state == AwaitingApproval then
      if Approves(userMessage) then c1.(state := Completed, messages := c1.messages + [Said(ApprovedText)])
      else
        var requirements := WithFeedback(c1.requirements, userMessage);
        Advanced(c1.(requirements := Some(requirements)), requirements, replies)
    else c1
  }

  /** _build_response: the response is complete exactly when the conversation is. */
  function ResponseOf(id: string, c: Conversation): (r: Response)
    ensures r.isComplete <==> c.state == Completed
    ensures r.state == c.state && r.draft == c.draft && r.messages == c.messages
  {
    Response(id, c.state, c.messages, c.draft, c.validationErrors, c.state == Completed)
  }

  /** The states a conversation rests in between calls; Generating and Validating are transient. */
  predicate Settled(s: ConversationState) {
    s != Generating && s != Validating
  }

  // ------------------------------------------------------------ properties

  lemma DanglingMessageInjective(a: string, b: string)
    requires DanglingMessage(a) == DanglingMessage(b)
    ensures a == b
  {
    var m := DanglingMessage(a);
    assert |a| == |b|;
    assert m[8..8 + |a|] == a;
    assert DanglingMessage(b)[8..8 + |b|] == b;
  }

  /** The structural check finds nothing exactly when every output names a step. */
  lemma {:induction false} OutputErrorsEmptyIff(outputs: seq<string>, ids: set<string>)
    ensures OutputErrors(outputs, ids) == [] <==> forall o :: o in outputs ==> o in ids
  {
    if outputs != [] {
      var init := outputs[..|outputs| - 1];
      OutputErrorsEmptyIff(init, ids);
      assert outputs == init + [outputs[|outputs| - 1]];
    }
  }

  /** An output is reported exactly when it is listed and names no step. */
  lemma {:induction false} OutputErrorsListDangling(outputs: seq<string>, ids: set<string>, o: string)
    ensures DanglingMessage(o) in OutputErrors(outputs, ids) <==> o in outputs && o !in ids
  {
    if outputs != [] {
      var init := outputs[..|outputs| - 1];
      var last := outputs[|outputs| - 1];
      OutputErrorsListDangling(init, ids, o);
      assert outputs == init + [last];
      if last !in ids && DanglingMessage(o) == DanglingMessage(last) {
        DanglingMessageInjective(o, last);
      }
    }
  }

  /**
   * A definition is valid exactly when every output names a step and the
   * semantic check finds no issue; each dangling output is reported, and the
   * semantic verdict is consulted only when there is none.
   */
  lemma ValidationVerdict(def: CalculatorDefinition, verdict: Option<seq<string>>)
    ensures ValidationOf(def, verdict).valid <==> (forall o :: o in def.outputs ==> o in StepIds(def)) && verdict.None?
    ensures forall o :: o in def.outputs && o !in StepIds(def) ==> DanglingMessage(o) in ValidationOf(def, verdict).errors
    ensures (forall o :: o in def.outputs ==> o in StepIds(def)) ==> ValidationOf(def, verdict).errors == verdict.GetOr([])
  {
    OutputErrorsEmptyIff(def.outputs, StepIds(def));
    forall o | o in def.outputs && o !in StepIds(def)
      ensures DanglingMessage(o) in ValidationOf(def, verdict).errors
    {
      OutputErrorsListDangling(def.outputs, StepIds(def), o);
    }
  }

  /** A generator failure goes back to elicitation and keeps the previous draft and errors. */
  lemma GenerationFailureReturnsToEliciting(c: Conversation, requirements: string, replies: AgentReplies)
    requires replies.generated.Err?
    ensures var a := Advanced(c, requirements, replies);
      a.state == Eliciting && a.draft == c.draft && a.validationErrors == c.validationErrors
      && a.requirements == Some(requirements)
      && a.messages == c.messages + [Said(GenerationTrouble(replies.generated.error))]
  {
  }

  /**
   * A generated definition is always put up for approval. The repaired
   * definition replaces it exactly when the first validation failed and the
   * repair passed re-validation; otherwise the generated one is shown.
   */
  lemma GeneratedDraftAwaitsApproval(c: Conversation, requirements: string, replies: AgentReplies)
    requires replies.generated.Ok?
    ensures var a := Advanced(c, requirements, replies);
      var def := replies.generated.value;
      a.state == AwaitingApproval && a.requirements == Some(requirements)
      && (a.draft == Some(def) || a.draft == Some(replies.healed.value))
      && (ValidationOf(def, replies.verdict).valid ==> a.draft == Some(def))
      && (!ValidationOf(def, replies.verdict).valid && replies.healed.Ok? && ValidationOf(replies.healed.value, replies.reverdict).valid
          ==> a.draft == Some(replies.healed.value) && a.validationErrors == [])
      && (a.draft != Some(def) ==> replies.healed.Ok? && ValidationOf(replies.healed.value, replies.reverdict).valid)
      && a.messages[..|c.messages|] == c.messages
      && a.messages[|a.messages| - 1] == Said(Preview(a.draft.value))
  {
  }

  /**
   * When the first validation fails the recorded errors are those of the last
   * check run, and they are announced when there are any.
   */
  lemma FailedValidationRecordsErrors(c: Conversation, requirements: string, replies: AgentReplies)
    requires replies.generated.Ok? && !ValidationOf(replies.generated.value, replies.verdict).valid
    ensures var a := Advanced(c, requirements, replies);
      (replies.healed.Err? ==> a.validationErrors == ValidationOf(replies.generated.value, replies.verdict).errors)
      && (replies.healed.Ok? && !ValidationOf(replies.healed.value, replies.reverdict).valid
          ==> a.validationErrors == ValidationOf(replies.healed.value, replies.reverdict).errors
              && a.draft == Some(replies.generated.value))
      && (a.validationErrors != [] ==> Said(IssuesMessage(a.validationErrors)) in a.messages)
  {
    var a := Advanced(c, requirements, replies);
    if a.validationErrors != [] {
      assert a.messages[|c.messages|] == Said(IssuesMessage(a.validationErrors));
    }
  }

  /**
   * A draft that validates the first time leaves the conversation's earlier
   * validation errors in place, so a regenerated draft can be reported with
   * the errors of the draft it replaced.
   */
  lemma ValidDraftKeepsEarlierErrors(c: Conversation, requirements: string, replies: AgentReplies)
    requires replies.generated.Ok? && ValidationOf(replies.generated.value, replies.verdict).valid
    ensures Advanced(c, requirements, replies).validationErrors == c.validationErrors
    ensures Advanced(c, requirements, replies).messages == c.messages + [Said(Preview(replies.generated.value))]
  {
  }

  /** Generation always appends at least one message and leaves a settled state. */
  lemma AdvancedExtends(c: Conversation, requirements: string, replies: AgentReplies)
    ensures var a := Advanced(c, requirements, replies);
      |a.messages| > |c.messages| && a.messages[..|c.messages|] == c.messages
      && (a.state == Eliciting || a.state == AwaitingApproval)
  {
    var a := Advanced(c, requirements, replies);
    if replies.generated.Ok? {
      assert a.messages[..|c.messages|] == c.messages;
    }
  }

  /** The user's message is logged right after the earlier ones, before any reply. */
  lemma UserMessageRecordedFirst(c: Conversation, userMessage: string, replies: AgentReplies)
    ensures var r := Continued(c, userMessage, replies);
      |r.messages| > |c.messages| && r.messages[..|c.messages| + 1] == c.messages + [Message(UserRole, userMessage)]
  {
    var c1 := c.(messages := c.messages + [Message(UserRole, userMessage)]);
    var r := Continued(c, userMessage, replies);
    if c.state == Eliciting {
      var c2 := c1.(messages := c1.messages + [Said(replies.elicitation.message)]);
      if replies.elicitation.requirements.Some? {
        AdvancedExtends(c2, replies.elicitation.requirements.value, replies);
        assert r.messages[..|c2.messages|] == c2.messages;
        assert r.messages[..|c.messages| + 1] == c2.messages[..|c.messages| + 1];
      } else {
        assert r.messages[..|c.messages| + 1] == c1.messages;
      }
    } else if c.state == AwaitingApproval && !Approves(userMessage) {
      var requirements := WithFeedback(c1.requirements, userMessage);
      AdvancedExtends(c1.(requirements := Some(requirements)), requirements, replies);
    } else {
      assert r.messages[..|c.messages| + 1] == c1.messages;
    }
  }

  /** An approving reply to a draft completes the conversation and keeps the draft. */
  lemma ApprovalCompletes(c: Conversation, userMessage: string, replies: AgentReplies)
    requires c.state == AwaitingApproval && Approves(userMessage)
    ensures var r := Continued(c, userMessage, replies);
      r.state == Completed && r.draft == c.draft && r.validationErrors == c.validationErrors
      && r.messages == c.messages + [Message(UserRole, userMessage), Said(ApprovedText)]
  {
  }

  /** Any other reply to a draft is appended to the requirements as feedback and regenerates. */
  lemma FeedbackRegenerates(c: Conversation, userMessage: string, replies: AgentReplies)
    requires c.state == AwaitingApproval && !Approves(userMessage)
    ensures var r := Continued(c, userMessage, replies);
      r.requirements == Some(WithFeedback(c.requirements, userMessage))
      && (r.state == Eliciting || r.state == AwaitingApproval)
  {
    var requirements := WithFeedback(c.requirements, userMessage);
    var c1 := c.(messages := c.messages + [Message(UserRole, userMessage)]);
    AdvancedExtends(c1.(requirements := Some(requirements)), requirements, replies);
  }

  /** A conversation completes only through an approving reply to a draft, and stays completed. */
  lemma CompletionOnlyByApproval(c: Conversation, userMessage: string, replies: AgentReplies)
    ensures Continued(c, userMessage, replies).state == Completed <==>
      c.state == Completed || (c.state == AwaitingApproval && Approves(userMessage))
    ensures c.state == Completed ==>
      Continued(c, userMessage, replies) == c.(messages := c.messages + [Message(UserRole, userMessage)])
  {
    var c1 := c.(messages := c.messages + [Message(UserRole, userMessage)]);
    if c.state == Eliciting {
      var c2 := c1.(messages := c1.messages + [Said(replies.elicitation.message)]);
      if replies.elicitation.requirements.Some? {
        AdvancedExtends(c2, replies.elicitation.requirements.value, replies);
      }
    } else if c.state == AwaitingApproval && !Approves(userMessage) {
      FeedbackRegenerates(c, userMessage, replies);
    }
  }

  /** continue_generation's handling of a reply, split into the conversation it updates and the requirements it regenerates from. */
  lemma ContinuedSplits(c: Conversation, userMessage: string, replies: AgentReplies, conv: Conversation, requirements: Option<string>)
    requires var c1 := c.(messages := c.messages + [Message(UserRole, userMessage)]);
      if c.state == Eliciting then
        conv == c1.(messages := c1.messages + [Said(replies.elicitation.message)]) && requirements == replies.elicitation.requirements
      else if c.state == AwaitingApproval && Approves(userMessage) then
        conv == c1.(state := Completed, messages := c1.messages + [Said(ApprovedText)]) && requirements.None?
      else if c.state == AwaitingApproval then
        requirements == Some(WithFeedback(c.requirements, userMessage))
        && conv == c1.(requirements := requirements)
      else conv == c1 && requirements.None?
    ensures Continued(c, userMessage, replies) == if requirements.Some? then Advanced(conv, requirements.value, replies) else conv
  {
  }

  /** A new conversation is never left Generating or Validating. */
  lemma StartedSettled(description: string, category: Option<string>, jurisdiction: string, replies: AgentReplies)
    ensures Settled(Started(description, category, jurisdiction, replies).state)
  {
    var s := Conversation(Eliciting, description, category, jurisdiction, [Said(replies.elicitation.message)], None, None, []);
    if replies.elicitation.requirements.Some? {
      AdvancedExtends(s, replies.elicitation.requirements.value, replies);
    }
  }

  /** A reply to a settled conversation leaves it settled. */
  lemma ContinuedSettled(c: Conversation, userMessage: string, replies: AgentReplies)
    requires Settled(c.state)
    ensures Settled(Continued(c, userMessage, replies).state)
  {
    CompletionOnlyByApproval(c, userMessage, replies);
    var c1 := c.(messages := c.messages + [Message(UserRole, userMessage)]);
    if c.state == Eliciting {
      var c2 := c1.(messages := c1.messages + [Said(replies.elicitation.message)]);
      if replies.elicitation.requirements.Some? {
        AdvancedExtends(c2, replies.elicitation.requirements.value, replies);
      }
    } else if c.state == AwaitingApproval && !Approves(userMessage) {
      FeedbackRegenerates(c, userMessage, replies);
    }
  }

  /**
   * The validation and single repair attempt of _advance_to_generation: the
   * definition to present, the errors to record and the announcement of any.
   */
  method ValidateAndHeal(generated: CalculatorDefinition, replies: AgentReplies, earlier: seq<string>)
    returns (presented: CalculatorDefinition, errors: seq<string>, issues: seq<Message>)
    ensures presented == Presented(generated, replies)
    ensures errors == ErrorsAfter(generated, replies, earlier)
    ensures issues == if !ValidationOf(generated, replies.verdict).valid && errors != [] then [Said(IssuesMessage(errors))] else []
  {
    presented, errors, issues := generated, earlier, [];
    var v := ValidateDefinition(generated, replies.verdict);
    if !v.valid {
      if replies.healed.Ok? {
        var healed := replies.healed.value;
        var rv := ValidateDefinition(healed, replies.reverdict);
        if rv.valid {
          presented := healed;
          errors := [];
        } else {
          errors := rv.errors;
        }
      } else {
        errors := v.errors;
      }
      if errors != [] {
        issues := [Said(IssuesMessage(errors))];
      }
    }
  }

  /**
   * continue_generation's handling of a reply before any regeneration: the
   * updated conversation and, when the reply calls for one, the requirements
   * to regenerate from.
   */
  method HandleReply(c: Conversation, userMessage: string, replies: AgentReplies)
    returns (conv: Conversation, requirements: Option<string>)
    ensures Continued(c, userMessage, replies) == if requirements.Some? then Advanced(conv, requirements.value, replies) else conv
  {
    conv := c.(messages := c.messages + [Message(UserRole, userMessage)]);
    requirements := None;
    if conv.state == Eliciting {
      conv := conv.(messages := conv.messages + [Said(replies.elicitation.message)]);
      requirements := replies.elicitation.requirements;
    } else if conv.state == AwaitingApproval {
      if Approves(userMessage) {
        conv := conv.(state := Completed, messages := conv.messages + [Said(ApprovedText)]);
      } else {
        requirements := Some(WithFeedback(conv.requirements, userMessage));
        conv := conv.(requirements := requirements);
      }
    }
    ContinuedSplits(c, userMessage, replies, conv, requirements);
  }

  predicate AllSettled(conversations: map<string, Conversation>) {
    forall id :: id in conversations ==> Settled(conversations[id].state)
  }

  lemma StoreSettled(conversations: map<string, Conversation>, id: string, c: Conversation)
    requires AllSettled(conversations) && Settled(c.state)
    ensures AllSettled(conversations[id := c])
  {
  }

  // ------------------------------------------------------------ the orchestrator

  class Orchestrator {
    var conversations: map<string, Conversation>

    /** Every stored conversation rests in a settled state. */
    predicate Valid()
      reads this
    {
      AllSettled(conversations)
    }

    constructor()
      ensures conversations == map[] && Valid()
    {
      conversations := map[];
    }

    method StartGeneration(id: string, description: string, category: Option<string>, jurisdiction: string, replies: AgentReplies)
      returns (resp: Response)
      modifies this
      ensures conversations == old(conversations)[id := Started(description, category, jurisdiction, replies)]
      ensures replies.elicitation.requirements.Some? ==> resp == ResponseOf(id, conversations[id])
      ensures replies.elicitation.requirements.None? ==>
        resp == Response(id, Eliciting, [Said(replies.elicitation.message)], None, [], false)
      ensures old(Valid()) ==> Valid()
    {
      var conv := Conversation(Eliciting, description, category, jurisdiction, [], None, None, []);
      conv := conv.(messages := conv.messages + [Said(replies.elicitation.message)]);
      assert conv.messages == [Said(replies.elicitation.message)];
      resp := StoreAndRespond(id, conv, replies.elicitation.requirements, replies);
      if old(Valid()) {
        StartedSettled(description, category, jurisdiction, replies);
        StoreSettled(old(conversations), id, conversations[id]);
      }
    }

    method ContinueGeneration(id: string, userMessage: string, replies: AgentReplies) returns (resp: Response)
      modifies this
      ensures id !in old(conversations) ==>
        conversations == old(conversations) && resp == Response(id, Eliciting, [Said(NotFoundText)], None, [], false)
      ensures id in old(conversations) ==>
        conversations == old(conversations)[id := Continued(old(conversations)[id], userMessage, replies)]
        && resp == ResponseOf(id, conversations[id])
      ensures old(Valid()) ==> Valid()
    {
      if id !in conversations {
        return Response(id, Eliciting, [Said(NotFoundText)], None, [], false);
      }
      var c := conversations[id];
      var conv, requirements := HandleReply(c, userMessage, replies);
      resp := StoreAndRespond(id, conv, requirements, replies);
      if old(Valid()) {
        ContinuedSettled(c, userMessage, replies);
        StoreSettled(old(conversations), id, conversations[id]);
      }
    }

    /**
     * Stores the conversation under its id and, when requirements are given,
     * advances it to generation; answers with the stored conversation.
     */
    method StoreAndRespond(id: string, conv: Conversation, requirements: Option<string>, replies: AgentReplies)
      returns (resp: Response)
      modifies this
      ensures conversations == old(conversations)[id := if requirements.Some? then Advanced(conv, requirements.value, replies) else conv]
      ensures resp == ResponseOf(id, conversations[id])
    {
      conversations := conversations[id := conv];
      if requirements.Some? {
        ghost var mid := conversations;
        resp := AdvanceToGeneration(id, requirements.value, replies);
        assert mid[id := conversations[id]] == old(conversations)[id := conversations[id]];
      } else {
        resp := BuildResponse(id);
      }
    }

    method AdvanceToGeneration(id: string, requirements: string, replies: AgentReplies) returns (resp: Response)
      requires id in conversations
      modifies this
      ensures conversations == old(conversations)[id := Advanced(old(conversations)[id], requirements, replies)]
      ensures resp == ResponseOf(id, conversations[id])
    {
      var conv := conversations[id];
      conv := conv.(requirements := Some(requirements), state := Generating);
      if replies.generated.Err? {
        conv := conv.(messages := conv.messages + [Said(GenerationTrouble(replies.generated.error))], state := Eliciting);
        conversations := conversations[id := conv];
        return ResponseOf(id, conv);
      }
      var definition := replies.generated.value;
      conv := conv.(draft := Some(definition), state := Validating);
      var errors, issues;
      definition, errors, issues := ValidateAndHeal(definition, replies, conv.validationErrors);
      conv := conv.(draft := Some(definition), validationErrors := errors, messages := conv.messages + issues);
      conv := conv.(state := AwaitingApproval, messages := conv.messages + [Said(Preview(definition))]);
      conversations := conversations[id := conv];
      resp := ResponseOf(id, conv);
    }

    function BuildResponse(id: string): (r: Response)
      reads this
      requires id in conversations
      ensures r == ResponseOf(id, conversations[id])
    {
      ResponseOf(id, conversations[id])
    }

    /** The stored draft, or None for an unknown conversation or one without a draft. */
    function GetDraftDefinition(id: string): (r: Option<CalculatorDefinition>)
      reads this
      ensures r.Some? <==> id in conversations && conversations[id].draft.Some?
      ensures r.Some? ==> r == conversations[id].draft
    {
      if id !in conversations then None else conversations[id].draft
    }
  }
}
