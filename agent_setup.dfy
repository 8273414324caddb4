/** The agent list handed to the realtime SDK on connect
    (src/app/SimpleApp.tsx): the selected agent moved to the front, then
    the custom prompt put in place of the first agent's instructions. */
module AgentSetup {
  import opened Wrappers
  import opened AgentConfigs

  /** `findIndex`: the first position whose agent has the given name. */
  function FindIndex(agents: seq<Agent>, name: string): (r: Option<nat>)
    ensures r.Some? ==> r.value < |agents| && agents[r.value].name == name
    ensures r.Some? ==> forall j :: 0 <= j < r.value ==> agents[j].name != name
    ensures r.None? ==> forall j :: 0 <= j < |agents| ==> agents[j].name != name
  {
    if agents == [] then None
    else if agents[0].name == name then Some(0)
    else match FindIndex(agents[1..], name)
      case None => None
      case Some(i) => Some(i + 1)
  }

  /** `s` without its element at `k`. */
  function RemoveAt<T>(s: seq<T>, k: nat): seq<T>
    requires k < |s|
  {
    s[..k] + s[k + 1..]
  }

  /** The reference reading of the reorder: when the selected agent first
      occurs at a position past the front, it is taken out and put first;
      otherwise the list stays as it is. */
  function Reordered(agents: seq<Agent>, name: string): seq<Agent> {
    match FindIndex(agents, name)
    case Some(idx) => if idx > 0 then [agents[idx]] + RemoveAt(agents, idx) else agents
    case None => agents
  }

  /** The reorder only moves agents: it is a permutation. */
  lemma {:induction false} ReorderedIsPermutation(agents: seq<Agent>, name: string)
    ensures multiset(Reordered(agents, name)) == multiset(agents)
  {
    var r := FindIndex(agents, name);
    if r.Some? && r.value > 0 {
      var idx := r.value;
      assert agents == agents[..idx] + [agents[idx]] + agents[idx + 1..];
      calc {
        multiset(agents);
        multiset(agents[..idx]) + multiset{agents[idx]} + multiset(agents[idx + 1..]);
        multiset([agents[idx]] + RemoveAt(agents, idx));
      }
    }
  }

  /** When the selected agent is in the list, it ends up in front, and the
      other agents keep their relative order: taking the front agent away
      leaves the list with its first selected agent taken away. A list
      without the selected agent comes back unchanged. */
  lemma {:induction false} ReorderedPutsSelectedFirst(agents: seq<Agent>, name: string)
    ensures |Reordered(agents, name)| == |agents|
    ensures (exists j :: 0 <= j < |agents| && agents[j].name == name) ==>
              && Reordered(agents, name)[0].name == name
              && Reordered(agents, name)[1..] == RemoveAt(agents, FindIndex(agents, name).value)
    ensures (forall j :: 0 <= j < |agents| ==> agents[j].name != name) ==> Reordered(agents, name) == agents
  {
    var r := FindIndex(agents, name);
    if r.Some? {
      var idx := r.value;
      if idx == 0 {
        assert RemoveAt(agents, 0) == agents[1..];
      } else {
        assert ([agents[idx]] + RemoveAt(agents, idx))[1..] == RemoveAt(agents, idx);
      }
    }
  }

  /** A list whose front is `agents[idx]`, followed by the agents before
      `idx` and then those after it, is the reordered list. */
  lemma {:induction false} MovedToFront(s: seq<Agent>, agents: seq<Agent>, idx: nat)
    requires 0 < idx < |agents| == |s| && s[0] == agents[idx]
    requires forall k :: 0 < k <= idx ==> s[k] == agents[k - 1]
    requires forall k :: idx < k < |s| ==> s[k] == agents[k]
    ensures s == [agents[idx]] + RemoveAt(agents, idx)
  {
    var t := [agents[idx]] + RemoveAt(agents, idx);
    forall k | 0 <= k < |s|
      ensures s[k] == t[k]
    {
      if 0 < k <= idx {
        assert t[k] == agents[..idx][k - 1];
      } else if idx < k {
        assert t[k] == agents[idx + 1..][k - idx - 1];
      }
    }
  }

  /** The reorder as the source performs it: a copy of the list, a scan for
      the first agent with the selected name, and, when that is past the
      front, the agent taken out (`splice`) and put back at the front
      (`unshift`), shifting the agents before it one place along. */
  method ReorderAgents(agents: seq<Agent>, name: string) returns (r: seq<Agent>)
    ensures r == Reordered(agents, name)
  {
    var a := new Agent[|agents|](i requires 0 <= i < |agents| => agents[i]);
    assert a[..] == agents;
    var idx := FindIndexIn(a, name);
    if idx > 0 {
      MoveToFront(a, idx);
      r := a[..];
    } else {
      r := agents;
    }
  }

  /** `findIndex` over the copy: the first position holding an agent with
      the given name, or -1. */
  method FindIndexIn(a: array<Agent>, name: string) returns (idx: int)
    ensures idx == match FindIndex(a[..], name) case Some(k) => k case None => -1
  {
    idx := 0;
    while idx < a.Length && a[idx].name != name
      invariant 0 <= idx <= a.Length
      invariant forall j :: 0 <= j < idx ==> a[j].name != name
    {
      idx := idx + 1;
    }
    if idx == a.Length {
      idx := -1;
    }
  }

  /** `splice(idx, 1)` then `unshift`: the agents before `idx` each move
      one place along and the agent from `idx` goes in front. */
  method MoveToFront(a: array<Agent>, idx: int)
    requires 0 < idx < a.Length
    modifies a
    ensures a[..] == [old(a[idx])] + RemoveAt(old(a[..]), idx)
  {
    ghost var agents := a[..];
    var agent := a[idx];
    var j := idx;
    while j > 0
      invariant 0 <= j <= idx
      invariant forall k :: 0 <= k <= j ==> a[k] == agents[k]
      invariant forall k :: j < k <= idx ==> a[k] == agents[k - 1]
      invariant forall k :: idx < k < a.Length ==> a[k] == agents[k]
    {
      a[j] := a[j - 1];
      j := j - 1;
    }
    a[0] := agent;
    MovedToFront(a[..], agents, idx);
  }

  /** A non-empty custom prompt replaces the instructions of the first
      agent, keeping its other fields; otherwise the list is untouched. */
  function ApplyCustomPrompt(agents: seq<Agent>, prompt: string): (r: seq<Agent>)
    ensures |r| == |agents|
    ensures forall i :: 0 <= i < |r| ==> r[i].name == agents[i].name
    ensures forall i :: 1 <= i < |r| ==> r[i] == agents[i]
    ensures prompt != "" && agents != [] ==> r[0] == agents[0].(instructions := prompt)
    ensures prompt == "" ==> r == agents
  {
    if prompt != "" && |agents| > 0 then agents[0 := agents[0].(instructions := prompt)] else agents
  }

  /** Applying the override to its own result changes nothing. */
  lemma {:induction false} CustomPromptIdempotent(agents: seq<Agent>, prompt: string)
    ensures ApplyCustomPrompt(ApplyCustomPrompt(agents, prompt), prompt) == ApplyCustomPrompt(agents, prompt)
  {
  }
}
