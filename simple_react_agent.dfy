/**
 * The demo agent's tool functions, the environment check it runs first,
 * and the event counter of its lifecycle hooks. Random draws and the
 * process environment are parameters; the agents framework that calls the
 * hooks is not modelled.
 */
module SimpleReactAgent {
  import opened Wrappers
  import opened Text

  /** `multiply_by_two`. */
  function MultiplyByTwo(x: int): int {
    x * 2
  }

  /** `is_even`: Python's `x % 2 == 0`; for a divisor of 2 the floored and Euclidean remainders agree. */
  predicate IsEven(x: int) {
    x % 2 == 0
  }

  /** A number is even exactly when it is twice some integer. */
  lemma IsEvenIffDouble(x: int)
    ensures IsEven(x) <==> exists k :: x == MultiplyByTwo(k)
  {
    if IsEven(x) {
      assert x == MultiplyByTwo(x / 2);
    }
  }

  /** Doubling always gives an even number, and halving undoes it. */
  lemma DoubledIsEven(x: int)
    ensures IsEven(MultiplyByTwo(x)) && MultiplyByTwo(x) / 2 == x
  {
  }

  /**
   * `random_number(max)`: `random.randint(0, max)`, which draws from the
   * inclusive range and raises a `ValueError` (`None` here) on an empty
   * one. `draw` is the generator's choice, reduced into the range.
   */
  function RandomNumber(max: int, draw: nat): (r: Option<int>)
    ensures max < 0 <==> r.None?
    ensures r.Some? ==> 0 <= r.value <= max
  {
    if max < 0 then None else Some(draw % (max + 1))
  }

  /** Every number of the inclusive range can be drawn. */
  lemma RandomNumberCoversRange(max: int, v: int)
    requires 0 <= v <= max
    ensures RandomNumber(max, v) == Some(v)
  {
  }

  const RequiredVars: seq<string> := ["OPENAI_API_KEY"]

  /** `os.getenv(var)` is falsy: unset, or set to "". */
  predicate MissingVar(environ: map<string, string>, name: string) {
    name !in environ || environ[name] == ""
  }

  /**
   * `load_env`, after `load_dotenv` has filled `environ`: the first missing
   * required variable raises a `ValueError` naming it.
   */
  method LoadEnv(environ: map<string, string>) returns (r: Outcome<string>)
    ensures r.Pass? <==> forall j :: 0 <= j < |RequiredVars| ==> !MissingVar(environ, RequiredVars[j])
    ensures r.Fail? ==>
              exists j :: (0 <= j < |RequiredVars| && MissingVar(environ, RequiredVars[j])
                           && r.error == "Missing required environment variable: " + RequiredVars[j])
  {
    for i := 0 to |RequiredVars|
      invariant forall j :: 0 <= j < i ==> !MissingVar(environ, RequiredVars[j])
    {
      var name := RequiredVars[i];
      if MissingVar(environ, name) {
        return Fail("Missing required environment variable: " + name);
      }
    }
    return Pass;
  }

  /** The agent has its key exactly when OPENAI_API_KEY is set and non-empty. */
  lemma LoadEnvNeedsApiKey(environ: map<string, string>)
    ensures (forall j :: 0 <= j < |RequiredVars| ==> !MissingVar(environ, RequiredVars[j]))
            <==> "OPENAI_API_KEY" in environ && environ["OPENAI_API_KEY"] != ""
  {
    assert RequiredVars[0] == "OPENAI_API_KEY";
  }

  /** The five hook events, with the names each one prints. */
  datatype HookEvent =
    | Start(agent: string)
    | End(agent: string, output: string)
    | Handoff(agent: string, source: string)
    | ToolStart(agent: string, tool: string)
    | ToolEnd(agent: string, tool: string, result: string)

  /** The line a hook prints for event number `n`. */
  function EventLine(displayName: string, n: nat, e: HookEvent): string {
    "### (" + displayName + ") " + Decimal(n) + ": " +
    match e
    case Start(agent) => "Agent " + agent + " started"
    case End(agent, output) => "Agent " + agent + " ended with output " + output
    case Handoff(agent, source) => "Agent " + source + " handed off to " + agent
    case ToolStart(agent, tool) => "Agent " + agent + " started tool " + tool
    case ToolEnd(agent, tool, result) => "Agent " + agent + " ended tool " + tool + " with result " + result
  }

  /**
   * A hook's line carries its event's number: lines for different numbers
   * differ, whatever the events.
   */
  lemma EventLineNumber(displayName: string, n: nat, m: nat, e: HookEvent, e': HookEvent)
    ensures EventLine(displayName, n, e) == EventLine(displayName, m, e') ==> n == m
  {
    var head := "### (" + displayName + ") ";
    var l1, l2 := EventLine(displayName, n, e), EventLine(displayName, m, e');
    var x, y := l1[|head| + |Decimal(n)|..], l2[|head| + |Decimal(m)|..];
    assert l1 == head + (Decimal(n) + x) && x[0] == ':';
    assert l2 == head + (Decimal(m) + y) && y[0] == ':';
    if l1 == l2 {
      assert Decimal(n) + x == l1[|head|..] == Decimal(m) + y;
      DigitsBeforeColon(Decimal(n), x, Decimal(m), y);
      DecimalInjective(n, m);
    }
  }

  /** `CustomAgentHooks`: every hook adds one to the counter and prints a numbered line. */
  class CustomAgentHooks {
    var eventCounter: nat
    const displayName: string

    constructor (displayName: string)
      ensures eventCounter == 0 && this.displayName == displayName
    {
      eventCounter := 0;
      this.displayName := displayName;
    }

    method OnStart(agent: string) returns (line: string)
      modifies this
      ensures eventCounter == old(eventCounter) + 1
      ensures line == EventLine(displayName, eventCounter, Start(agent))
    {
      eventCounter := eventCounter + 1;
      line := EventLine(displayName, eventCounter, Start(agent));
    }

    method OnEnd(agent: string, output: string) returns (line: string)
      modifies this
      ensures eventCounter == old(eventCounter) + 1
      ensures line == EventLine(displayName, eventCounter, End(agent, output))
    {
      eventCounter := eventCounter + 1;
      line := EventLine(displayName, eventCounter, End(agent, output));
    }

    method OnHandoff(agent: string, source: string) returns (line: string)
      modifies this
      ensures eventCounter == old(eventCounter) + 1
      ensures line == EventLine(displayName, eventCounter, Handoff(agent, source))
    {
      eventCounter := eventCounter + 1;
      line := EventLine(displayName, eventCounter, Handoff(agent, source));
    }

    method OnToolStart(agent: string, tool: string) returns (line: string)
      modifies this
      ensures eventCounter == old(eventCounter) + 1
      ensures line == EventLine(displayName, eventCounter, ToolStart(agent, tool))
    {
      eventCounter := eventCounter + 1;
      line := EventLine(displayName, eventCounter, ToolStart(agent, tool));
    }

    method OnToolEnd(agent: string, tool: string, result: string) returns (line: string)
      modifies this
      ensures eventCounter == old(eventCounter) + 1
      ensures line == EventLine(displayName, eventCounter, ToolEnd(agent, tool, result))
    {
      eventCounter := eventCounter + 1;
      line := EventLine(displayName, eventCounter, ToolEnd(agent, tool, result));
    }
  }
}
