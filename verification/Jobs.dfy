/** Queued node executions and the `{event, steps}` input threaded through them. */
module Jobs {
  import opened Values

  type NodeId = string

  /** A node's input object, keyed `event`, `steps` and, in a foreach body, the loop variable. */
  type Input = map<string, Json>

  /** How the worker dispatches a node. */
  datatype NodeType =
    | Plain(name: string)
    | Switch
    | Foreach
    | Wait
    | SendSignal
    | RerunFailed

  /** The parts of a job that come straight from the Wafer node. */
  datatype NodeDef = NodeDef(
    workflowId: string,
    nodeName: string,
    nodeType: NodeType,
    config: Json,
    command: seq<string>,
    secrets: seq<string>,
    dedupeKey: string)

  /** What a foreach scheduler carries: its body template, loop variable and rejoins. */
  datatype Loop = Loop(body: NodeJob, bodyAs: string, rejoins: seq<NodeId>)

  /** The markers of a rejoin that collects a foreach body's results. */
  datatype Collect = Collect(from: NodeId, asVar: string, count: nat, name: NodeId)

  /** One queued node execution: self-contained, its successors nested in `downstream`. */
  datatype NodeJob = NodeJob(
    runId: string,
    nodeId: NodeId,
    def: NodeDef,
    input: Input,
    skip: bool,
    dependents: seq<NodeId>,
    downstream: seq<NodeJob>,
    loop: Option<Loop>,
    collect: Option<Collect>)

  const EVENT := "event"
  const STEPS := "steps"

  function EventOf(input: Input): Json {
    if EVENT in input then input[EVENT] else JNull
  }

  /** The `steps` object of an input, or the empty object when it is absent or not an object. */
  function StepsOf(input: Input): map<string, Json> {
    if STEPS in input && input[STEPS].JObj? then input[STEPS].fields else map[]
  }

  function MakeInput(event: Json, steps: map<string, Json>): (input: Input)
    ensures EventOf(input) == event && StepsOf(input) == steps
  {
    assert EVENT[0] != STEPS[0];
    map[EVENT := event, STEPS := JObj(steps)]
  }

  /** A successor's input: the parent's event unchanged, the parent's result added under its name. */
  function ThreadInput(parent: Input, nodeName: string, result: Json): (input: Input)
    ensures EventOf(input) == EventOf(parent)
    ensures nodeName != "" ==> StepsOf(input) == StepsOf(parent)[nodeName := result]
    ensures nodeName == "" ==> StepsOf(input) == StepsOf(parent)
  {
    var steps := StepsOf(parent);
    MakeInput(EventOf(parent), if nodeName != "" then steps[nodeName := result] else steps)
  }

  /** One foreach iteration's input: the foreach's event and steps plus the element. */
  function ItemInput(parent: Input, asVar: string, item: Json): (input: Input)
    ensures asVar in input && input[asVar] == item
    ensures asVar != EVENT ==> EventOf(input) == EventOf(parent)
    ensures asVar != STEPS ==> StepsOf(input) == StepsOf(parent)
  {
    MakeInput(EventOf(parent), StepsOf(parent))[asVar := item]
  }

  /** The stored result of a node on a branch that was not chosen. */
  const SKIPPED: Json := JObj(map["skipped" := JBool(true)])

  /** The stored result of an executed switch. */
  function BranchResult(chosen: NodeId): (r: Json)
    ensures ChosenBranch(r) == Some(chosen)
  {
    JObj(map["branch" := JStr(chosen)])
  }

  function ChosenBranch(result: Json): Option<NodeId> {
    if result.JObj? && "branch" in result.fields && result.fields["branch"].JStr?
    then Some(result.fields["branch"].s)
    else None
  }

  /** The stored result of a foreach scheduler. */
  function ItemsResult(items: seq<Json>): Json {
    JObj(map["items" := JArr(items)])
  }

  /** The stored result of a resumed wait. */
  function WakeResult(source: string, payload: Json): Json {
    JObj(map["source" := JStr(source), "payload" := payload])
  }

  /** The id of one iteration of a foreach body. */
  function IterId(body: NodeId, i: nat): NodeId {
    body + "#" + Itoa(i)
  }

  lemma IterIdInjective(body: NodeId, i: nat, j: nat)
    requires IterId(body, i) == IterId(body, j)
    ensures i == j
  {
    assert Itoa(i) == IterId(body, i)[|body| + 1..];
    assert Itoa(j) == IterId(body, j)[|body| + 1..];
    ItoaInjective(i, j);
  }

  /** Iterations of different bodies have different ids, whatever the bodies are called. */
  lemma IterIdApart(a: NodeId, i: nat, b: NodeId, j: nat)
    requires IterId(a, i) == IterId(b, j) && |Itoa(i)| <= |Itoa(j)|
    ensures a == b
  {
    var s := IterId(a, i);
    var at := |s| - |Itoa(i)| - 1;
    assert s[at] == '#';
    if |Itoa(i)| < |Itoa(j)| {
      var k := |Itoa(j)| - |Itoa(i)| - 1;
      assert s[at] == Itoa(j)[k];
      ItoaDigits(j, k);
      assert false;
    }
    assert a == s[..at] && b == s[..at];
  }
}
