/**
 * The LangGraph agent of app.py: the state record, one function per node,
 * LangGraph's "merge the returned keys" step, the compiled graph as a step
 * relation over node labels, one run of the graph, and the console loop of
 * `main`.
 *
 * The language model is `Env.complete`, a total function from the prompt a
 * node sends to the text it gets back (the model runs at temperature 0). The
 * vector search behind `rag(query)` is `Env.search`, which yields the
 * `metadatas` that `Rag.Formatted` renders.
 */
module App {
  import opened Wrappers
  import opened Text
  import Rag

  /** One entry of the conversation, `{"role": ..., "content": ...}`. */
  datatype Message = Message(role: string, content: string)

  /**
   * `AgentState`. A `None` field is a key that is unset or holds `None`;
   * `main` builds its input without a `language` key.
   */
  datatype AgentState = AgentState(
    query: string,
    language: Option<string>,
    messages: seq<Message>,
    routingDecision: Option<string>,
    productRagResults: Option<string>,
    shopInfoRagResults: Option<seq<Rag.Dict>>,
    response: Option<string>)

  /** The keys a node may return. */
  datatype Key = LanguageKey | RoutingDecisionKey | ProductRagResultsKey | ShopInfoRagResultsKey | ResponseKey

  /** The value under a key, for stating what a step leaves alone. */
  datatype Value = Absent | Str(text: string) | Table(rows: seq<Rag.Dict>)

  function TextOf(o: Option<string>): Value {
    if o.Some? then Str(o.value) else Absent
  }

  function TableOf(o: Option<seq<Rag.Dict>>): Value {
    if o.Some? then Table(o.value) else Absent
  }

  /** The dict a node returns: the keys it sets, with their values. */
  datatype Update = Update(
    language: Option<string>,
    routingDecision: Option<string>,
    productRagResults: Option<string>,
    shopInfoRagResults: Option<seq<Rag.Dict>>,
    response: Option<string>)

  const NoKeys := Update(None, None, None, None, None)

  function Get(s: AgentState, k: Key): Value {
    match k
    case LanguageKey => TextOf(s.language)
    case RoutingDecisionKey => TextOf(s.routingDecision)
    case ProductRagResultsKey => TextOf(s.productRagResults)
    case ShopInfoRagResultsKey => TableOf(s.shopInfoRagResults)
    case ResponseKey => TextOf(s.response)
  }

  function Returned(u: Update, k: Key): Value {
    match k
    case LanguageKey => TextOf(u.language)
    case RoutingDecisionKey => TextOf(u.routingDecision)
    case ProductRagResultsKey => TextOf(u.productRagResults)
    case ShopInfoRagResultsKey => TableOf(u.shopInfoRagResults)
    case ResponseKey => TextOf(u.response)
  }

  /**
   * LangGraph's update step: every returned key overwrites the state's value,
   * every other key, and the query and messages, stay as they were.
   */
  function Merge(s: AgentState, u: Update): (t: AgentState)
    ensures t.query == s.query && t.messages == s.messages
    ensures forall k :: Get(t, k) == (if Returned(u, k) != Absent then Returned(u, k) else Get(s, k))
  {
    AgentState(
      s.query,
      if u.language.Some? then u.language else s.language,
      s.messages,
      if u.routingDecision.Some? then u.routingDecision else s.routingDecision,
      if u.productRagResults.Some? then u.productRagResults else s.productRagResults,
      if u.shopInfoRagResults.Some? then u.shopInfoRagResults else s.shopInfoRagResults,
      if u.response.Some? then u.response else s.response)
  }

  /**
   * What each node sends to the language model: the values its f-string
   * interpolates (the fixed wording of the templates is not modelled).
   */
  datatype Prompt =
    | DetectLanguage(query: string)
    | ChooseAgent(instruction: string, query: string)
    | AnswerProduct(instruction: string, query: string, ragResults: string, language: string)
    | AnswerShop(instruction: string, query: string, ragResults: string, language: string)

  /** `MANAGER_INSTRUCTION`, `PRODUCT_INSTRUCTION`, `SHOP_INFORMATION_INSTRUCTION`. */
  datatype Instructions = Instructions(manager: string, product: string, shopInformation: string)

  datatype Env = Env(
    complete: Prompt -> string,
    search: string -> seq<Rag.ResultEntry>,
    instructions: Instructions)

  const ProductLabel := "product"
  const ShopLabel := "shop_information"
  const NoAnswerLabel := "no_answer"

  predicate IsRouteLabel(d: string) {
    d == ProductLabel || d == ShopLabel || d == NoAnswerLabel
  }

  /**
   * app.py:32-46: `process_query` returns only `language`, the model's reply
   * with no white space left at either end.
   */
  function ProcessQuery(s: AgentState, env: Env): (u: Update)
    ensures forall k :: Returned(u, k) != Absent <==> k == LanguageKey
    ensures u.language.Some?
    ensures var l := u.language.value; l != [] ==> l[0] !in SpaceChars && l[|l| - 1] !in SpaceChars
  {
    StripBySpec(env.complete(DetectLanguage(s.query)), SpaceChars);
    NoKeys.(language := Some(DetectedLanguage(s.query, env)))
  }

  /** The language `process_query` detects for a query. */
  function DetectedLanguage(query: string, env: Env): string {
    Strip(env.complete(DetectLanguage(query)))
  }

  /** The route `determine_agent` chooses for a query. */
  function ChosenRoute(query: string, env: Env): string {
    RoutingDecision(env.complete(ChooseAgent(env.instructions.manager, query)))
  }

  /**
   * app.py:71-79: the reply, lowered and stripped, routes to "product" when it
   * mentions "product", else to "shop_information" when it mentions that,
   * else to "no_answer". Stripping cannot change either test.
   */
  function RoutingDecision(reply: string): (d: string)
    ensures IsRouteLabel(d)
    ensures d == ProductLabel <==> Contains(Lower(reply), "product")
    ensures d == ShopLabel <==>
              !Contains(Lower(reply), "product") && Contains(Lower(reply), "shop_information")
  {
    var text := Strip(Lower(reply));
    StripKeepsWords(Lower(reply), "product");
    StripKeepsWords(Lower(reply), "shop_information");
    if Contains(text, "product") then ProductLabel
    else if Contains(text, "shop_information") then ShopLabel
    else NoAnswerLabel
  }

  /** app.py:48-86: `determine_agent` returns only `routing_decision`. */
  function DetermineAgent(s: AgentState, env: Env): (u: Update)
    ensures u.routingDecision.Some? && IsRouteLabel(u.routingDecision.value)
  {
    NoKeys.(routingDecision := Some(ChosenRoute(s.query, env)))
  }

  /** `rag(query)`: the formatted search results for the query. */
  function ProductContext(query: string, env: Env): string {
    Rag.Formatted(env.search(query))
  }

  function ProductPrompt(s: AgentState, env: Env): Prompt
    requires s.language.Some?
  {
    AnswerProduct(env.instructions.product, s.query, ProductContext(s.query, env), s.language.value)
  }

  /**
   * app.py:88-118: the product handler returns the retrieved text and the
   * model's answer, and nothing else.
   */
  function HandleProductQuery(s: AgentState, env: Env): (u: Update)
    requires s.language.Some?
    ensures forall k :: Returned(u, k) != Absent <==> k == ProductRagResultsKey || k == ResponseKey
    ensures u.productRagResults == Some(Rag.Formatted(env.search(s.query)))
    ensures exists p :: u.response == Some(env.complete(p))
                        && p.AnswerProduct? && p.query == s.query
                        && p.ragResults == u.productRagResults.value && p.language == s.language.value
  {
    NoKeys.(productRagResults := Some(ProductContext(s.query, env)),
            response := Some(env.complete(ProductPrompt(s, env))))
  }

  /** The shop table as the handler's f-string prints it. */
  function ShopContext(): string {
    Rag.DictListText(Rag.ShopInformation())
  }

  function ShopPrompt(s: AgentState, env: Env): Prompt
    requires s.language.Some?
  {
    AnswerShop(env.instructions.shopInformation, s.query, ShopContext(), s.language.value)
  }

  /**
   * app.py:120-150: the shop handler returns the shop table and the model's
   * answer, and nothing else.
   */
  function HandleShopInformationQuery(s: AgentState, env: Env): (u: Update)
    requires s.language.Some?
    ensures forall k :: Returned(u, k) != Absent <==> k == ShopInfoRagResultsKey || k == ResponseKey
    ensures u.shopInfoRagResults == Some(Rag.ShopInformation())
    ensures exists p :: u.response == Some(env.complete(p))
                        && p.AnswerShop? && p.query == s.query
                        && p.ragResults == Rag.DictListText(u.shopInfoRagResults.value)
                        && p.language == s.language.value
  {
    NoKeys.(shopInfoRagResults := Some(Rag.ShopInformation()),
            response := Some(env.complete(ShopPrompt(s, env))))
  }

  /** app.py:152-157: `format_response` returns an empty dict, so merging it changes nothing. */
  function FormatResponse(s: AgentState): (u: Update)
    ensures forall k :: Returned(u, k) == Absent
    ensures Merge(s, u) == s
  {
    NoKeys
  }

  /** app.py:160-167: the edge label for the conditional branch. */
  function RouteQuery(s: AgentState): (edge: string)
    ensures IsRouteLabel(edge)
    ensures edge == ProductLabel <==> s.routingDecision == Some(ProductLabel)
    ensures edge == ShopLabel <==> s.routingDecision == Some(ShopLabel)
  {
    if s.routingDecision == Some(ProductLabel) then ProductLabel
    else if s.routingDecision == Some(ShopLabel) then ShopLabel
    else NoAnswerLabel
  }

  const VietnameseApology := "Tôi xin lỗi, tôi không biết trả lời câu hỏi của bạn."
  const EnglishApology := "I'm sorry, I don't know how to answer that."

  function Apology(language: string): string {
    if language == "vi" then VietnameseApology else EnglishApology
  }

  /** app.py:169-179: the apology is Vietnamese exactly when `language == "vi"`. */
  function NoAnswer(s: AgentState): (u: Update)
    requires s.language.Some?
    ensures u.response == Some(VietnameseApology) <==> s.language == Some("vi")
    ensures u.response == Some(EnglishApology) <==> s.language != Some("vi")
  {
    NoKeys.(response := Some(Apology(s.language.value)))
  }

  /** The nodes of the compiled graph, with LangGraph's START and END. */
  datatype Node = Start | ProcessQueryNode | DetermineAgentNode
                | ProductNode | ShopNode | NoAnswerNode | FormatResponseNode | End

  /** app.py:198-206: the path map from edge labels to nodes. */
  function BranchTarget(edgeLabel: string): Option<Node> {
    if edgeLabel == ProductLabel then Some(ProductNode)
    else if edgeLabel == ShopLabel then Some(ShopNode)
    else if edgeLabel == NoAnswerLabel then Some(NoAnswerNode)
    else None
  }

  /** app.py:194-212: every edge of the graph, the conditional ones included. */
  predicate Edge(a: Node, b: Node) {
    match a
    case Start => b == ProcessQueryNode
    case ProcessQueryNode => b == DetermineAgentNode
    case DetermineAgentNode => b == ProductNode || b == ShopNode || b == NoAnswerNode
    case ProductNode => b == FormatResponseNode
    case ShopNode => b == FormatResponseNode
    case FormatResponseNode => b == End
    case NoAnswerNode => b == End
    case End => false
  }

  /** Distance from START; every edge leads to a larger rank. */
  function Rank(n: Node): nat {
    match n
    case Start => 0
    case ProcessQueryNode => 1
    case DetermineAgentNode => 2
    case ProductNode => 3
    case ShopNode => 3
    case NoAnswerNode => 3
    case FormatResponseNode => 4
    case End => 5
  }

  lemma EdgeRaisesRank(a: Node, b: Node)
    requires Edge(a, b)
    ensures Rank(a) < Rank(b)
  {
  }

  /** The node LangGraph runs after `n`, given the state merged after `n`. */
  function Next(n: Node, s: AgentState): (m: Node)
    requires n != End
    ensures Edge(n, m)
  {
    match n
    case Start => ProcessQueryNode
    case ProcessQueryNode => DetermineAgentNode
    case DetermineAgentNode => BranchTarget(RouteQuery(s)).value
    case ProductNode => FormatResponseNode
    case ShopNode => FormatResponseNode
    case FormatResponseNode => End
    case NoAnswerNode => End
  }

  /** `p` follows edges of the graph. */
  predicate IsPath(p: seq<Node>) {
    forall i :: 0 <= i < |p| - 1 ==> Edge(p[i], p[i + 1])
  }

  lemma {:induction false} PathRanks(p: seq<Node>, i: nat)
    requires IsPath(p) && i < |p|
    ensures Rank(p[i]) >= Rank(p[0]) + i
  {
    if i > 0 {
      PathRanks(p, i - 1);
      EdgeRaisesRank(p[i - 1], p[i]);
    }
  }

  /** The graph has no cycle: no node occurs twice on a path. */
  lemma PathNodesDistinct(p: seq<Node>, i: nat, j: nat)
    requires IsPath(p) && i < j < |p|
    ensures p[i] != p[j]
  {
    PathRanks(p[i..], j - i);
  }

  /** Any path has at most six nodes, so at most four besides START and END. */
  lemma PathIsShort(p: seq<Node>)
    requires IsPath(p)
    ensures |p| <= 6
  {
    if |p| > 6 {
      PathRanks(p, 6);
    }
  }

  /** The handlers and `no_answer` read `state["language"]`. */
  predicate CanRun(n: Node, s: AgentState) {
    n != Start && n != End
    && ((n == ProductNode || n == ShopNode || n == NoAnswerNode) ==> s.language.Some?)
  }

  /** What node `n` returns when it runs on state `s`. */
  function RunNode(n: Node, s: AgentState, env: Env): Update
    requires CanRun(n, s)
  {
    match n
    case ProcessQueryNode => ProcessQuery(s, env)
    case DetermineAgentNode => DetermineAgent(s, env)
    case ProductNode => HandleProductQuery(s, env)
    case ShopNode => HandleShopInformationQuery(s, env)
    case NoAnswerNode => NoAnswer(s)
    case FormatResponseNode => FormatResponse(s)
  }

  /** The keys each node returns. */
  function OwnKeys(n: Node): set<Key> {
    match n
    case ProcessQueryNode => {LanguageKey}
    case DetermineAgentNode => {RoutingDecisionKey}
    case ProductNode => {ProductRagResultsKey, ResponseKey}
    case ShopNode => {ShopInfoRagResultsKey, ResponseKey}
    case NoAnswerNode => {ResponseKey}
    case _ => {}
  }

  /** Each node updates only its own keys; the merge keeps every other field. */
  lemma NodeChangesOnlyOwnKeys(n: Node, s: AgentState, env: Env)
    requires CanRun(n, s)
    ensures forall k :: Returned(RunNode(n, s, env), k) != Absent <==> k in OwnKeys(n)
    ensures var t := Merge(s, RunNode(n, s, env));
            t.query == s.query && t.messages == s.messages
            && forall k :: k !in OwnKeys(n) ==> Get(t, k) == Get(s, k)
  {
    var u := RunNode(n, s, env);
    match n
    case ProcessQueryNode =>
      assert u.language.Some? && u.routingDecision.None? && u.productRagResults.None?;
      assert u.shopInfoRagResults.None? && u.response.None?;
    case DetermineAgentNode =>
      assert u.language.None? && u.routingDecision.Some? && u.productRagResults.None?;
      assert u.shopInfoRagResults.None? && u.response.None?;
    case ProductNode =>
      assert u.language.None? && u.routingDecision.None? && u.productRagResults.Some?;
      assert u.shopInfoRagResults.None? && u.response.Some?;
    case ShopNode =>
      assert u.language.None? && u.routingDecision.None? && u.productRagResults.None?;
      assert u.shopInfoRagResults.Some? && u.response.Some?;
    case NoAnswerNode =>
      assert u.language.None? && u.routingDecision.None? && u.productRagResults.None?;
      assert u.shopInfoRagResults.None? && u.response.Some?;
    case FormatResponseNode =>
      assert u == NoKeys;
  }

  /** The prompts node `n` sends to the model when it runs on `s`. */
  function PromptsOf(n: Node, s: AgentState, env: Env): seq<Prompt>
    requires CanRun(n, s)
  {
    match n
    case ProcessQueryNode => [DetectLanguage(s.query)]
    case DetermineAgentNode => [ChooseAgent(env.instructions.manager, s.query)]
    case ProductNode => [ProductPrompt(s, env)]
    case ShopNode => [ShopPrompt(s, env)]
    case _ => []
  }

  /** A run: the nodes executed, in order, the prompts sent, and the final state. */
  datatype Run = Run(visited: seq<Node>, prompts: seq<Prompt>, final: AgentState)

  /** Once `process_query` has run, `language` is set. */
  predicate Ready(n: Node, s: AgentState) {
    n == ProcessQueryNode || s.language.Some?
  }

  /** Run the graph from node `n` on state `s` until END. */
  function Execute(n: Node, s: AgentState, env: Env): (r: Run)
    requires n != Start && Ready(n, s)
    ensures r.visited == [] <==> n == End
    ensures r.visited != [] ==> r.visited[0] == n && IsPath(r.visited + [End])
    ensures r.final.language.Some? && r.final.query == s.query && r.final.messages == s.messages
    decreases 5 - Rank(n)
  {
    if n == End then Run([], [], s)
    else
      var t := Merge(s, RunNode(n, s, env));
      var m := Next(n, t);
      EdgeRaisesRank(n, m);
      var rest := Execute(m, t, env);
      PathCons(n, rest.visited);
      Run([n] + rest.visited, PromptsOf(n, s, env) + rest.prompts, rest.final)
  }

  /** One more edge in front of a path that ends at END. */
  lemma PathCons(n: Node, p: seq<Node>)
    requires p == [] ==> Edge(n, End)
    requires p != [] ==> Edge(n, p[0]) && IsPath(p + [End])
    ensures IsPath([n] + p + [End])
  {
    var q := [n] + p + [End];
    forall i | 0 <= i < |q| - 1
      ensures Edge(q[i], q[i + 1])
    {
      if i > 0 {
        assert q[i] == (p + [End])[i - 1] && q[i + 1] == (p + [End])[i];
      }
    }
  }

  /**
   * `compiled_graph.invoke(input_state)`: a run from START to END along the
   * graph's edges, with `language` set at the end.
   */
  function Invoke(input: AgentState, env: Env): (r: Run)
    ensures r.visited != [] && r.visited[0] == ProcessQueryNode
    ensures IsPath([Start] + r.visited + [End]) && |r.visited| <= 4
    ensures r.final.language.Some?
  {
    var r := Execute(Next(Start, input), input, env);
    PathCons(Start, r.visited);
    assert [Start] + r.visited + [End] == [Start] + (r.visited + [End]);
    PathIsShort([Start] + r.visited + [End]);
    r
  }

  /** The nodes a run visits for a given route. */
  function PathFor(route: string): seq<Node> {
    if route == ProductLabel then [ProcessQueryNode, DetermineAgentNode, ProductNode, FormatResponseNode]
    else if route == ShopLabel then [ProcessQueryNode, DetermineAgentNode, ShopNode, FormatResponseNode]
    else [ProcessQueryNode, DetermineAgentNode, NoAnswerNode]
  }

  /** The state once `process_query` and `determine_agent` have run. */
  function Routed(input: AgentState, env: Env): (s: AgentState)
    ensures s.query == input.query && s.messages == input.messages
    ensures s.language == Some(DetectedLanguage(input.query, env))
    ensures s.routingDecision == Some(ChosenRoute(input.query, env))
    ensures s.productRagResults == input.productRagResults
    ensures s.shopInfoRagResults == input.shopInfoRagResults
    ensures s.response == input.response
  {
    var s1 := Merge(input, ProcessQuery(input, env));
    Merge(s1, DetermineAgent(s1, env))
  }

  /** The handler the conditional edge picks for a route. */
  function HandlerFor(route: string): Node {
    if route == ProductLabel then ProductNode
    else if route == ShopLabel then ShopNode
    else NoAnswerNode
  }

  /** The handler of a route is the node the conditional edge's path map gives for it. */
  lemma HandlerForIsBranchTarget(route: string)
    ensures IsRouteLabel(route) ==> BranchTarget(route) == Some(HandlerFor(route))
  {
  }

  /** The first two steps of every run. */
  lemma InvokeStartsWithRouting(input: AgentState, env: Env)
    ensures var s := Routed(input, env);
            var tail := Execute(HandlerFor(ChosenRoute(input.query, env)), s, env);
            Invoke(input, env) == Run(
              [ProcessQueryNode, DetermineAgentNode] + tail.visited,
              [DetectLanguage(input.query), ChooseAgent(env.instructions.manager, input.query)] + tail.prompts,
              tail.final)
  {
    var s1 := Merge(input, ProcessQuery(input, env));
    var s2 := Routed(input, env);
    HandlerForIsBranchTarget(ChosenRoute(input.query, env));
    assert Next(DetermineAgentNode, s2) == HandlerFor(ChosenRoute(input.query, env));
    var tail := Execute(HandlerFor(ChosenRoute(input.query, env)), s2, env);
    var choose := ChooseAgent(env.instructions.manager, input.query);
    var x := Execute(DetermineAgentNode, s1, env);
    assert x == Run([DetermineAgentNode] + tail.visited, [choose] + tail.prompts, tail.final);
    assert Invoke(input, env) == Execute(ProcessQueryNode, input, env);
    assert Execute(ProcessQueryNode, input, env)
        == Run([ProcessQueryNode] + x.visited, [DetectLanguage(input.query)] + x.prompts, x.final);
    PrependTwo(ProcessQueryNode, DetermineAgentNode, tail.visited);
    PrependTwo(DetectLanguage(input.query), choose, tail.prompts);
  }

  lemma PrependTwo<T>(a: T, b: T, t: seq<T>)
    ensures [a] + ([b] + t) == [a, b] + t
  {
  }

  /** From a handler the run ends after `format_response`, or at once after `no_answer`. */
  lemma HandlerRun(h: Node, s: AgentState, env: Env)
    requires h == ProductNode || h == ShopNode || h == NoAnswerNode
    requires s.language.Some?
    ensures Execute(h, s, env) == Run(
              if h == NoAnswerNode then [h] else [h, FormatResponseNode],
              PromptsOf(h, s, env),
              Merge(s, RunNode(h, s, env)))
  {
    var t := Merge(s, RunNode(h, s, env));
    var m := Next(h, t);
    ExecuteStep(h, s, env);
    if h == NoAnswerNode {
      assert m == End;
      assert [h] + [] == [h] && PromptsOf(h, s, env) + [] == PromptsOf(h, s, env);
    } else {
      assert m == FormatResponseNode;
      FormatResponseRun(t, env);
      assert [h] + [FormatResponseNode] == [h, FormatResponseNode];
      assert PromptsOf(h, s, env) + [] == PromptsOf(h, s, env);
    }
  }

  /** One step of a run: node `n` runs, its update is merged, and the run goes on from its successor. */
  lemma ExecuteStep(n: Node, s: AgentState, env: Env)
    requires n != Start && n != End && Ready(n, s)
    ensures var t := Merge(s, RunNode(n, s, env));
            var rest := Execute(Next(n, t), t, env);
            Execute(n, s, env) == Run([n] + rest.visited, PromptsOf(n, s, env) + rest.prompts, rest.final)
  {
  }

  /** `format_response` leaves the state as it is and the run ends. */
  lemma FormatResponseRun(t: AgentState, env: Env)
    requires t.language.Some?
    ensures Execute(FormatResponseNode, t, env) == Run([FormatResponseNode], [], t)
  {
    assert Merge(t, FormatResponse(t)) == t;
  }

  /**
   * Every run goes process_query, determine_agent, exactly one of the three
   * handlers, then format_response after the product or shop handler only,
   * then END; it runs at most four nodes and always leaves a response.
   */
  lemma InvokeFollowsOnePath(input: AgentState, env: Env)
    ensures var r := Invoke(input, env);
            && r.visited == PathFor(ChosenRoute(input.query, env))
            && IsPath([Start] + r.visited + [End])
            && |r.visited| <= 4
            && r.final.response.Some?
            && r.final.query == input.query && r.final.messages == input.messages
            && r.final.language == Some(DetectedLanguage(input.query, env))
            && r.final.routingDecision == Some(ChosenRoute(input.query, env))
  {
    var route := ChosenRoute(input.query, env);
    InvokeStartsWithRouting(input, env);
    HandlerRun(HandlerFor(route), Routed(input, env), env);
    PathForSplits(route);
    PathForIsPath(route);
  }

  lemma PathForSplits(route: string)
    ensures var h := HandlerFor(route);
            PathFor(route) == [ProcessQueryNode, DetermineAgentNode]
                              + (if h == NoAnswerNode then [h] else [h, FormatResponseNode])
  {
  }

  lemma PathForIsPath(route: string)
    ensures IsPath([Start] + PathFor(route) + [End]) && |PathFor(route)| <= 4
  {
    var p := [Start] + PathFor(route) + [End];
    if route == ProductLabel {
      assert p == [Start, ProcessQueryNode, DetermineAgentNode, ProductNode, FormatResponseNode, End];
    } else if route == ShopLabel {
      assert p == [Start, ProcessQueryNode, DetermineAgentNode, ShopNode, FormatResponseNode, End];
    } else {
      assert p == [Start, ProcessQueryNode, DetermineAgentNode, NoAnswerNode, End];
    }
  }

  /**
   * The language detected by `process_query` is the language inserted into
   * every answer prompt of the run.
   */
  lemma InvokeKeepsLanguage(input: AgentState, env: Env)
    ensures var r := Invoke(input, env);
            forall p :: p in r.prompts && (p.AnswerProduct? || p.AnswerShop?) ==>
              p.language == DetectedLanguage(input.query, env)
  {
    var s := Routed(input, env);
    var h := HandlerFor(ChosenRoute(input.query, env));
    InvokeStartsWithRouting(input, env);
    HandlerRun(h, s, env);
    HandlerPromptsUseLanguage(h, s, env);
    AnswersAfterRouting(input.query, env.instructions.manager, PromptsOf(h, s, env), s.language.value);
  }

  lemma HandlerPromptsUseLanguage(h: Node, s: AgentState, env: Env)
    requires CanRun(h, s) && s.language.Some?
    ensures forall p :: p in PromptsOf(h, s, env) && (p.AnswerProduct? || p.AnswerShop?) ==>
              p.language == s.language.value
  {
  }

  lemma AnswersAfterRouting(query: string, manager: string, tail: seq<Prompt>, language: string)
    requires forall p :: p in tail && (p.AnswerProduct? || p.AnswerShop?) ==> p.language == language
    ensures forall p :: (p in [DetectLanguage(query), ChooseAgent(manager, query)] + tail
                         && (p.AnswerProduct? || p.AnswerShop?)) ==> p.language == language
  {
  }

  /** On the no-answer path the response is the apology in the detected language. */
  lemma NoAnswerRunReplies(input: AgentState, env: Env)
    requires ChosenRoute(input.query, env) == NoAnswerLabel
    ensures Invoke(input, env).final.response == Some(Apology(DetectedLanguage(input.query, env)))
    ensures Invoke(input, env).final.productRagResults == input.productRagResults
    ensures Invoke(input, env).final.shopInfoRagResults == input.shopInfoRagResults
  {
    InvokeStartsWithRouting(input, env);
    HandlerRun(NoAnswerNode, Routed(input, env), env);
  }

  /** On the product path the response is the model's answer to the product prompt. */
  lemma ProductRunReplies(input: AgentState, env: Env)
    requires ChosenRoute(input.query, env) == ProductLabel
    ensures var r := Invoke(input, env);
            && r.final.productRagResults == Some(ProductContext(input.query, env))
            && r.final.shopInfoRagResults == input.shopInfoRagResults
            && r.final.response == Some(env.complete(AnswerProduct(env.instructions.product, input.query,
                 ProductContext(input.query, env), DetectedLanguage(input.query, env))))
  {
    InvokeStartsWithRouting(input, env);
    HandlerRun(ProductNode, Routed(input, env), env);
  }

  /** On the shop path the response is the model's answer to the shop prompt. */
  lemma ShopRunReplies(input: AgentState, env: Env)
    requires ChosenRoute(input.query, env) == ShopLabel
    ensures var r := Invoke(input, env);
            && r.final.shopInfoRagResults == Some(Rag.ShopInformation())
            && r.final.productRagResults == input.productRagResults
            && r.final.response == Some(env.complete(AnswerShop(env.instructions.shopInformation, input.query,
                 ShopContext(), DetectedLanguage(input.query, env))))
  {
    InvokeStartsWithRouting(input, env);
    HandlerRun(ShopNode, Routed(input, env), env);
  }

  lemma InvokeResponds(input: AgentState, env: Env)
    ensures Invoke(input, env).final.response.Some?
  {
    InvokeFollowsOnePath(input, env);
  }

  // The console loop of `main` (app.py:217-249).

  const ExitCommands := ["exit", "quit", "bye"]

  /** app.py:228: the loop stops on these words, in any ASCII case. */
  predicate IsExitCommand(line: string) {
    Lower(line) in ExitCommands
  }

  /** The exit test ignores ASCII case: a lowered line is an exit word exactly when the line is. */
  lemma ExitCommandIgnoresCase(line: string)
    ensures IsExitCommand(Lower(line)) <==> IsExitCommand(line)
    ensures IsExitCommand(line) ==> |line| == 3 || |line| == 4
  {
    LowerIdempotent(line);
  }

  /** app.py:233-240: the graph's input for one line. */
  function InputState(line: string, history: seq<Message>): AgentState {
    AgentState(line, None, history + [Message("user", line)], None, None, None, None)
  }

  /** `result["response"]` of one run of the graph, never missing. */
  function ResponseOf(input: AgentState, env: Env): string {
    InvokeResponds(input, env);
    Invoke(input, env).final.response.value
  }

  /** `compiled_graph.invoke(state)["response"]` as a function of the state. */
  function GraphReply(env: Env): AgentState -> string {
    input => ResponseOf(input, env)
  }

  /** The graph's reply is the response the run leaves in the state. */
  lemma GraphReplyIsResponse(input: AgentState, env: Env)
    ensures Some(GraphReply(env)(input)) == Invoke(input, env).final.response
  {
    InvokeResponds(input, env);
  }

  /** app.py:246: the history after one line, given how the graph answers. */
  function Turn(history: seq<Message>, line: string, answer: AgentState -> string): seq<Message> {
    history + [Message("user", line), Message("assistant", answer(InputState(line, history)))]
  }

  /** The history after the given non-exit lines, from an empty one. */
  function Conversation(lines: seq<string>, answer: AgentState -> string): seq<Message> {
    if |lines| == 0 then []
    else Turn(Conversation(lines[..|lines| - 1], answer), lines[|lines| - 1], answer)
  }

  /**
   * The history alternates each line as a user message and an assistant
   * reply, and each reply answers the history before it.
   */
  lemma {:induction false} ConversationShape(lines: seq<string>, answer: AgentState -> string)
    ensures |Conversation(lines, answer)| == 2 * |lines|
    ensures forall k :: 0 <= k < |lines| ==>
              Conversation(lines, answer)[2 * k] == Message("user", lines[k])
              && Conversation(lines, answer)[2 * k + 1]
                 == Message("assistant", answer(InputState(lines[k], Conversation(lines[..k], answer))))
  {
    if |lines| > 0 {
      var n := |lines| - 1;
      ConversationShape(lines[..n], answer);
      var h := Conversation(lines[..n], answer);
      var c := Conversation(lines, answer);
      assert c == h + [Message("user", lines[n]), Message("assistant", answer(InputState(lines[n], h)))];
      forall k | 0 <= k < |lines|
        ensures c[2 * k] == Message("user", lines[k])
        ensures c[2 * k + 1] == Message("assistant", answer(InputState(lines[k], Conversation(lines[..k], answer))))
      {
        if k < n {
          assert lines[..n][k] == lines[k];
          assert lines[..n][..k] == lines[..k];
          assert c[2 * k] == h[2 * k] && c[2 * k + 1] == h[2 * k + 1];
        } else {
          assert lines[..k] == lines[..n];
        }
      }
    }
  }

  lemma ConversationSnoc(lines: seq<string>, n: nat, answer: AgentState -> string)
    requires n < |lines|
    ensures Conversation(lines[..n + 1], answer) == Turn(Conversation(lines[..n], answer), lines[n], answer)
  {
    assert lines[..n + 1][..n] == lines[..n];
  }

  /**
   * app.py:221-249: read lines until an exit word; each other line runs the
   * graph (`answer`) and extends the history by the user message and the
   * reply. `consumed` counts the lines read; running out of lines ends the
   * loop.
   */
  method ChatTurns(lines: seq<string>, answer: AgentState -> string)
    returns (history: seq<Message>, consumed: nat, exited: bool)
    ensures consumed <= |lines|
    ensures exited <==> exists k :: 0 <= k < |lines| && IsExitCommand(lines[k])
    ensures exited ==> 0 < consumed && IsExitCommand(lines[consumed - 1])
                       && history == Conversation(lines[..consumed - 1], answer)
    ensures !exited ==> consumed == |lines| && history == Conversation(lines, answer)
    ensures forall k :: 0 <= k < consumed - 1 ==> !IsExitCommand(lines[k])
  {
    history, consumed, exited := [], 0, false;
    while consumed < |lines|
      invariant 0 <= consumed <= |lines|
      invariant forall k :: 0 <= k < consumed ==> !IsExitCommand(lines[k])
      invariant history == Conversation(lines[..consumed], answer)
    {
      var line := lines[consumed];
      if IsExitCommand(line) {
        consumed, exited := consumed + 1, true;
        return;
      }
      var reply := answer(InputState(line, history));
      ConversationSnoc(lines, consumed, answer);
      history := history + [Message("user", line), Message("assistant", reply)];
      consumed := consumed + 1;
    }
    assert lines[..consumed] == lines;
  }

  /** `main`: the console loop over this graph. */
  method ChatLoop(lines: seq<string>, env: Env) returns (history: seq<Message>, consumed: nat, exited: bool)
    ensures consumed <= |lines|
    ensures exited <==> exists k :: 0 <= k < |lines| && IsExitCommand(lines[k])
    ensures exited ==> 0 < consumed && IsExitCommand(lines[consumed - 1])
                       && history == Conversation(lines[..consumed - 1], GraphReply(env))
    ensures !exited ==> consumed == |lines| && history == Conversation(lines, GraphReply(env))
    ensures forall k :: 0 <= k < consumed - 1 ==> !IsExitCommand(lines[k])
  {
    history, consumed, exited := ChatTurns(lines, GraphReply(env));
  }
}
