/** The agent scenarios (src/app/agentConfigs): a single scenario, keyed
    "generalAI", holding one agent of that name. */
module AgentConfigs {

  /** A realtime agent as far as the session uses it: its name, its
      instructions and the fields a prompt override carries over. */
  datatype Agent = Agent(name: string, instructions: string, handoffs: seq<string>,
                         tools: seq<string>, handoffDescription: string)

  /** Stands for the long instructions text of the general assistant; its
      wording plays no part in any rule of the model. */
  const GeneralAIInstructions: string := "general assistant instructions"

  const GeneralAIAgent: Agent :=
    Agent("generalAI", GeneralAIInstructions, [], [], "General AI assistant that can help with any topic")

  /** Scenario key to agent list; the session uses the same map to connect. */
  const AllAgentSets: map<string, seq<Agent>> := map["generalAI" := [GeneralAIAgent]]

  const DefaultAgentSetKey: string := "generalAI"

  /** The properties every object literal inherits from `Object.prototype`.
      Indexing a scenario map by one of them yields a function, or for
      `__proto__` the prototype object, and either is truthy. */
  const InheritedNames: set<string> :=
    {"constructor", "hasOwnProperty", "isPrototypeOf", "propertyIsEnumerable",
     "toLocaleString", "toString", "valueOf", "__defineGetter__", "__defineSetter__",
     "__lookupGetter__", "__lookupSetter__", "__proto__"}

  /** `allAgentSets[key]` (or `sdkScenarioMap[key]`, which has the same own
      keys) is truthy: the key is one of the map's own keys or an inherited
      property name. */
  predicate LooksUpTruthy(key: string) {
    key in AllAgentSets || key in InheritedNames
  }

  /** Only "generalAI" names a scenario, yet "toString" and the other
      inherited names look up as truthy too, while "default" and "" do
      not. */
  lemma {:induction false} ScenarioKeys()
    ensures LooksUpTruthy(DefaultAgentSetKey) && DefaultAgentSetKey in AllAgentSets
    ensures LooksUpTruthy("toString") && "toString" !in AllAgentSets
    ensures LooksUpTruthy("__proto__") && "__proto__" !in AllAgentSets
    ensures !LooksUpTruthy("default") && !LooksUpTruthy("")
  {
  }
}
