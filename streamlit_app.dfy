/**
 * The bookkeeping of the web front end: the session state with its chat
 * lists and its four statistics counters, the step counter of the workflow
 * tracker, the sidebar's clear, reset and export actions, and the way a
 * form submission and a quick action extend the chat. The graph run is a
 * parameter: what `compiled_graph.invoke` returned or raised.
 */
module StreamlitApp {
  import opened Wrappers
  import opened Text

  /** A chat entry; `None` content is Python's `None`. */
  datatype ChatMessage = ChatMessage(role: string, content: Option<string>)

  function UserMessage(text: string): ChatMessage {
    ChatMessage("user", Some(text))
  }

  function AssistantMessage(response: Option<string>): ChatMessage {
    ChatMessage("assistant", response)
  }

  /** The keys `initialize_session_state` looks for. */
  datatype SessionKey = MessagesKey | HistoryKey | ProcessingKey | StatsKey

  const AllSessionKeys: set<SessionKey> := {MessagesKey, HistoryKey, ProcessingKey, StatsKey}

  /**
   * What `compiled_graph.invoke` did: raised (with the text `str(e)`), or
   * returned a state dict whose values are strings or `None`.
   */
  datatype GraphOutcome = Raised(message: string) | Returned(result: map<string, Option<string>>)

  /** `d.get(key, default)`. */
  function DictGet(d: map<string, Option<string>>, key: string, default: string): Option<string> {
    if key in d then d[key] else Some(default)
  }

  const DefaultFinalResponse: string := "I'm sorry, I couldn't process your request."
  const UnknownRoute: string := "unknown"
  /** `str(e)` of the error `None.lower()` raises. */
  const NoneLowerMessage: string := "'NoneType' object has no attribute 'lower'"
  const ErrorReplyPrefix: string := "I apologize, but I encountered an error: "
  const ErrorReplySuffix: string := "\nPlease try again with a different question."

  function ErrorReply(message: string): string {
    ErrorReplyPrefix + message + ErrorReplySuffix
  }

  /** The routing decision of a returned state; `None` when it is `None` there. */
  function RoutingOf(result: map<string, Option<string>>): Option<string> {
    DictGet(result, "routing_decision", UnknownRoute)
  }

  /** The run succeeds when the graph returns and its routing decision is a string. */
  predicate Succeeds(outcome: GraphOutcome) {
    outcome.Returned? && RoutingOf(outcome.result).Some?
  }

  /** A successful run whose lowered route mentions "product". */
  predicate CountsAsProduct(outcome: GraphOutcome) {
    Succeeds(outcome) && Contains(Lower(RoutingOf(outcome.result).value), "product")
  }

  /** A successful run whose lowered route mentions "shop" but not "product". */
  predicate CountsAsShop(outcome: GraphOutcome) {
    Succeeds(outcome) && !Contains(Lower(RoutingOf(outcome.result).value), "product")
    && Contains(Lower(RoutingOf(outcome.result).value), "shop")
  }

  /** The reply `process_query_with_workflow` returns for an outcome. */
  function Reply(outcome: GraphOutcome): Option<string> {
    match outcome
    case Raised(message) => Some(ErrorReply(message))
    case Returned(result) =>
      if RoutingOf(result).None? then Some(ErrorReply(NoneLowerMessage))
      else DictGet(result, "final_response", DefaultFinalResponse)
  }

  /**
   * A run that fails answers with the apology that starts with the error
   * prefix; a successful run answers with the state's final response.
   */
  lemma ReplyOnEachPath(outcome: GraphOutcome)
    ensures !Succeeds(outcome) ==>
              Reply(outcome).Some? && ErrorReplyPrefix <= Reply(outcome).value
    ensures Succeeds(outcome) ==>
              Reply(outcome) == DictGet(outcome.result, "final_response", DefaultFinalResponse)
  {
    if !Succeeds(outcome) {
      var m := if outcome.Raised? then outcome.message else NoneLowerMessage;
      assert Reply(outcome) == Some(ErrorReply(m));
      assert ErrorReply(m) == ErrorReplyPrefix + (m + ErrorReplySuffix);
    }
  }

  /** At most one category counter moves on a run, and only on success. */
  lemma CategoriesExclusive(outcome: GraphOutcome)
    ensures !(CountsAsProduct(outcome) && CountsAsShop(outcome))
    ensures (CountsAsProduct(outcome) || CountsAsShop(outcome)) ==> Succeeds(outcome)
  {
  }

  const WorkflowSteps: seq<string> := [
    "🌐 Detecting Language",
    "✏️ Rewriting Query",
    "🎯 Determining Agent Route",
    "📊 Evaluating Context Need",
    "🔍 Selecting Information Sources",
    "📖 Retrieving Context",
    "🤖 Generating Response",
    "✅ Evaluating Response Quality"]

  /** The tracker's step counter; the step list it renders is fixed. */
  class WorkflowTracker {
    var currentStep: int
    const steps: seq<string>

    constructor ()
      ensures currentStep == 0 && steps == WorkflowSteps
    {
      currentStep := 0;
      steps := WorkflowSteps;
    }

    /** `update_step`: "completed" jumps to the end, any other name moves one step. */
    method UpdateStep(stepName: string)
      modifies this
      ensures currentStep == if stepName == "completed" then |steps| else old(currentStep) + 1
    {
      if stepName == "completed" {
        currentStep := |steps|;
      } else {
        currentStep := currentStep + 1;
      }
    }
  }

  /**
   * The steps a query walks the tracker through: three announced steps
   * before the graph runs, and "completed" once it has returned.
   */
  method TrackWorkflow(graphReturned: bool) returns (tracker: WorkflowTracker)
    ensures fresh(tracker)
    ensures tracker.currentStep == if graphReturned then |WorkflowSteps| else 3
  {
    tracker := new WorkflowTracker();
    tracker.UpdateStep("detecting");
    tracker.UpdateStep("rewriting");
    tracker.UpdateStep("determining");
    if graphReturned {
      tracker.UpdateStep("completed");
    }
  }

  /** One line of the chat export. */
  function ExportLine(m: ChatMessage): string {
    (if m.role == "user" then "User" else "Assistant") + ": " + ContentText(m.content)
  }

  /** The f-string text of a message's content; `None` prints as "None". */
  function ContentText(content: Option<string>): string {
    if content.Some? then content.value else "None"
  }

  function ExportLines(messages: seq<ChatMessage>): (lines: seq<string>)
    ensures |lines| == |messages|
    ensures forall i :: 0 <= i < |messages| ==> lines[i] == ExportLine(messages[i])
  {
    seq(|messages|, i requires 0 <= i < |messages| => ExportLine(messages[i]))
  }

  /** The export text; no download is offered while the chat is empty. */
  function ChatExport(messages: seq<ChatMessage>): Option<string> {
    if messages == [] then None else Some(Join("\n", ExportLines(messages)))
  }

  /**
   * A line is marked "User: " exactly when the message's role is 'user', and
   * "Assistant: " otherwise; it ends with the message's content text.
   */
  lemma ExportLinePrefix(m: ChatMessage)
    ensures "User: " <= ExportLine(m) <==> m.role == "user"
    ensures m.role != "user" ==> "Assistant: " <= ExportLine(m)
    ensures var line, c := ExportLine(m), ContentText(m.content);
            |c| <= |line| && line[|line| - |c|..] == c
  {
    var line := ExportLine(m);
    var head := (if m.role == "user" then "User" else "Assistant") + ": ";
    assert line == head + ContentText(m.content);
    if m.role != "user" {
      assert line[0] == 'A';
    }
  }

  /** Every export line is marked by its message's role and ends with its content. */
  lemma ExportLinesShape(messages: seq<ChatMessage>)
    ensures forall i :: 0 <= i < |messages| ==>
              var line, c := ExportLines(messages)[i], ContentText(messages[i].content);
              && ("User: " <= line <==> messages[i].role == "user")
              && (messages[i].role != "user" ==> "Assistant: " <= line)
              && |c| <= |line| && line[|line| - |c|..] == c
  {
    forall i | 0 <= i < |messages| {
      ExportLinePrefix(messages[i]);
    }
  }

  /**
   * The export holds one line per message, in order: splitting it at line
   * breaks gives the lines back when no content holds a line break.
   */
  lemma ChatExportSplits(messages: seq<ChatMessage>)
    requires messages != []
    requires forall i :: 0 <= i < |messages| ==> '\n' !in ContentText(messages[i].content)
    ensures Split(ChatExport(messages).value, '\n') == ExportLines(messages)
  {
    var lines := ExportLines(messages);
    forall k | 0 <= k < |lines| ensures '\n' !in lines[k] {
      var m := messages[k];
      assert lines[k] == (if m.role == "user" then "User" else "Assistant") + ": " + ContentText(m.content);
    }
    SplitJoin(lines, '\n');
  }

  /** Streamlit's session state, as far as this front end uses it. */
  class SessionState {
    /** The keys set so far. */
    var present: set<SessionKey>
    var messages: seq<ChatMessage>
    var conversationHistory: seq<ChatMessage>
    var processing: bool
    var totalQueries: nat
    var successfulResponses: nat
    var productQueries: nat
    var shopQueries: nat

    /** Category counts never exceed successes, which never exceed queries. */
    predicate StatsValid()
      reads this
    {
      productQueries + shopQueries <= successfulResponses <= totalQueries
    }

    predicate StatsZero()
      reads this
    {
      totalQueries == 0 && successfulResponses == 0 && productQueries == 0 && shopQueries == 0
    }

    /** A fresh session holds no keys. */
    constructor ()
      ensures present == {}
    {
      present := {};
      messages := [];
      conversationHistory := [];
      processing := false;
      totalQueries, successfulResponses, productQueries, shopQueries := 0, 0, 0, 0;
    }

    /**
     * `initialize_session_state`: every missing key gets its default and
     * every present key keeps its value, so a second call changes nothing.
     */
    method InitializeSessionState()
      modifies this
      ensures present == AllSessionKeys
      ensures messages == if MessagesKey in old(present) then old(messages) else []
      ensures conversationHistory
              == if HistoryKey in old(present) then old(conversationHistory) else []
      ensures processing == if ProcessingKey in old(present) then old(processing) else false
      ensures StatsKey !in old(present) ==> StatsZero()
      ensures StatsKey in old(present) ==>
                totalQueries == old(totalQueries) && successfulResponses == old(successfulResponses)
                && productQueries == old(productQueries) && shopQueries == old(shopQueries)
      ensures old(present) == AllSessionKeys ==> unchanged(this)
      ensures old(StatsKey in present ==> StatsValid()) ==> StatsValid()
    {
      if MessagesKey !in present {
        messages := [];
        present := present + {MessagesKey};
      }
      if HistoryKey !in present {
        conversationHistory := [];
        present := present + {HistoryKey};
      }
      if ProcessingKey !in present {
        processing := false;
        present := present + {ProcessingKey};
      }
      if StatsKey !in present {
        totalQueries, successfulResponses, productQueries, shopQueries := 0, 0, 0, 0;
        present := present + {StatsKey};
      }
      forall k: SessionKey ensures k in present && k in AllSessionKeys {
        match k
        case MessagesKey =>
        case HistoryKey =>
        case ProcessingKey =>
        case StatsKey =>
      }
    }

    /**
     * `process_query_with_workflow`: one more query whatever happens; one
     * more success once the graph returns (also when the routing decision
     * then turns out to be `None` and its `lower()` raises); at most one
     * category on a success.
     */
    method ProcessQueryWithWorkflow(userInput: string, outcome: GraphOutcome)
      returns (response: Option<string>, success: bool)
      requires StatsKey in present && HistoryKey in present
      modifies this
      ensures totalQueries == old(totalQueries) + 1
      ensures successfulResponses == old(successfulResponses) + (if outcome.Returned? then 1 else 0)
      ensures productQueries == old(productQueries) + (if CountsAsProduct(outcome) then 1 else 0)
      ensures shopQueries == old(shopQueries) + (if CountsAsShop(outcome) then 1 else 0)
      ensures response == Reply(outcome) && success == Succeeds(outcome)
      ensures present == old(present) && messages == old(messages)
      ensures conversationHistory == old(conversationHistory) && processing == old(processing)
      ensures old(StatsValid()) ==> StatsValid()
    {
      totalQueries := totalQueries + 1;
      var tracker := TrackWorkflow(outcome.Returned?);
      match outcome
      case Raised(message) =>
        response, success := Some(ErrorReply(message)), false;
      case Returned(result) =>
        var finalResponse := DictGet(result, "final_response", DefaultFinalResponse);
        var routingDecision := DictGet(result, "routing_decision", UnknownRoute);
        successfulResponses := successfulResponses + 1;
        if routingDecision.None? {
          response, success := Some(ErrorReply(NoneLowerMessage)), false;
        } else {
          if Contains(Lower(routingDecision.value), "product") {
            productQueries := productQueries + 1;
          } else if Contains(Lower(routingDecision.value), "shop") {
            shopQueries := shopQueries + 1;
          }
          response, success := finalResponse, true;
        }
    }

    /**
     * The chat form: a submission whose text is blank after stripping is
     * ignored; otherwise the user message and then the reply are appended
     * and the history becomes exactly those two entries.
     */
    method SubmitForm(submitted: bool, userInput: string, outcome: GraphOutcome)
      requires present == AllSessionKeys
      modifies this
      ensures !(submitted && Strip(userInput) != "") ==> unchanged(this)
      ensures submitted && Strip(userInput) != "" ==>
                && messages == old(messages) + [UserMessage(userInput), AssistantMessage(Reply(outcome))]
                && conversationHistory == [UserMessage(userInput), AssistantMessage(Reply(outcome))]
                && !processing
                && totalQueries == old(totalQueries) + 1
                && successfulResponses == old(successfulResponses) + (if outcome.Returned? then 1 else 0)
                && productQueries == old(productQueries) + (if CountsAsProduct(outcome) then 1 else 0)
                && shopQueries == old(shopQueries) + (if CountsAsShop(outcome) then 1 else 0)
      ensures present == old(present)
      ensures old(StatsValid()) ==> StatsValid()
    {
      if submitted && Strip(userInput) != "" {
        messages := messages + [UserMessage(userInput)];
        processing := true;
        var response, success := ProcessQueryWithWorkflow(userInput, outcome);
        messages := messages + [AssistantMessage(response)];
        conversationHistory := [UserMessage(userInput), AssistantMessage(response)];
        processing := false;
      }
    }

    /**
     * A quick-action button: the query and its reply are appended to the
     * messages and added to the end of the existing history.
     */
    method QuickAction(query: string, outcome: GraphOutcome)
      requires present == AllSessionKeys
      modifies this
      ensures messages == old(messages) + [UserMessage(query), AssistantMessage(Reply(outcome))]
      ensures conversationHistory
              == old(conversationHistory) + [UserMessage(query), AssistantMessage(Reply(outcome))]
      ensures processing == old(processing) && present == old(present)
      ensures totalQueries == old(totalQueries) + 1
      ensures successfulResponses == old(successfulResponses) + (if outcome.Returned? then 1 else 0)
      ensures productQueries == old(productQueries) + (if CountsAsProduct(outcome) then 1 else 0)
      ensures shopQueries == old(shopQueries) + (if CountsAsShop(outcome) then 1 else 0)
      ensures old(StatsValid()) ==> StatsValid()
    {
      messages := messages + [UserMessage(query)];
      var response, success := ProcessQueryWithWorkflow(query, outcome);
      messages := messages + [AssistantMessage(response)];
      conversationHistory := conversationHistory + [UserMessage(query), AssistantMessage(response)];
    }

    /** "Clear Chat History": both chat lists emptied, nothing else touched. */
    method ClearChat()
      modifies this
      ensures messages == [] && conversationHistory == []
      ensures present == old(present) && processing == old(processing)
      ensures totalQueries == old(totalQueries) && successfulResponses == old(successfulResponses)
      ensures productQueries == old(productQueries) && shopQueries == old(shopQueries)
    {
      messages := [];
      conversationHistory := [];
    }

    /** "Reset Statistics": all four counters back to zero, nothing else touched. */
    method ResetStatistics()
      modifies this
      ensures StatsZero() && StatsValid()
      ensures present == old(present) && processing == old(processing)
      ensures messages == old(messages) && conversationHistory == old(conversationHistory)
    {
      totalQueries, successfulResponses, productQueries, shopQueries := 0, 0, 0, 0;
    }
  }
}
