/** The composer's wire protocol: the events a session emits, and the sequence number each carries. */
module Protocol {

  datatype Option<+T> = None | Some(value: T)

  /** A step's id and the name shown for it. */
  datatype CanvasStep = CanvasStep(id: string, name: string)

  /** A node entry of a document; `None` where the field is missing or is not a string. */
  datatype Node = Node(id: Option<string>, name: Option<string>)

  /** A workflow document: `nodes` is `None` when that field is not a list, `rest` is everything else. */
  datatype WorkflowIr = WorkflowIr(nodes: Option<seq<Node>>, rest: string)

  datatype Brief = Brief(name: string, goal: string, trigger: string, steps: seq<string>, needs: seq<string>)

  datatype Question = Question(id: string, text: string, options: seq<string>, nodeId: Option<string>)

  datatype Status = Passed | Failed

  datatype Event =
    | UserMessage(text: string, branch: Option<string>, steps: Option<seq<CanvasStep>>)
    | AssistantText(text: string)
    | OpApplied(ops: seq<string>, ir: WorkflowIr)
    | BriefPosted(brief: Brief)
    | QuestionAsked(question: Question)
    | QuestionResolved(questionId: string, answer: string, timedOut: bool)
    | Assumption(nodeId: string, text: string)
    | Offer(offerId: string)
    | ConnectionNeeded(nodeId: string, provider: string, providerLabel: string)
    | ConnectionResolved(nodeId: string)
    | StepResult(nodeId: string, status: Status, summary: Option<string>)
    | RunResult(status: Status, runId: string, failedNodeId: Option<string>)
    | Done(sessionId: string, numTurns: Option<nat>)
    | Error(message: string)

  datatype Sequenced = Sequenced(event: Event, seqNo: nat)

  /** The events of a sequenced log, without their numbers. */
  function Events(log: seq<Sequenced>): seq<Event> {
    seq(|log|, i requires 0 <= i < |log| => log[i].event)
  }

  /** A document's nodes as steps: a node needs a string for its id to be one. */
  function StepsOf(ir: WorkflowIr): seq<CanvasStep> {
    match ir.nodes
    case None => []
    case Some(nodes) => StepsOfNodes(nodes)
  }

  function StepsOfNodes(nodes: seq<Node>): seq<CanvasStep> {
    if nodes == [] then []
    else
      var rest := StepsOfNodes(nodes[1..]);
      match nodes[0].id
      case None => rest
      case Some(id) =>
        var name := if nodes[0].name.Some? && nodes[0].name.value != "" then nodes[0].name.value else id;
        [CanvasStep(id, name)] + rest
  }

  /** How many of these nodes have a string for their id. */
  function Identified(nodes: seq<Node>): nat {
    if nodes == [] then 0 else (if nodes[0].id.Some? then 1 else 0) + Identified(nodes[1..])
  }

  /**
   The steps are the nodes with an id, in their order: the `i`-th node, if it has one, is the step behind those of the
   nodes before it, under its id and its name, or its id again where it has no name.
   */
  lemma {:induction false} StepsAreIdentified(nodes: seq<Node>, i: nat)
    requires i < |nodes|
    ensures |StepsOfNodes(nodes)| == Identified(nodes)
    ensures nodes[i].id.Some? ==>
      var at, name := Identified(nodes[..i]), nodes[i].name;
      && at < |StepsOfNodes(nodes)|
      && StepsOfNodes(nodes)[at].id == nodes[i].id.value
      && (name.Some? && name.value != "" ==> StepsOfNodes(nodes)[at].name == name.value)
      && (name.None? || name.value == "" ==> StepsOfNodes(nodes)[at].name == nodes[i].id.value)
  {
    if i == 0 {
      assert nodes[..0] == [];
      if |nodes| > 1 {
        StepsAreIdentified(nodes[1..], 0);
      }
    } else {
      StepsAreIdentified(nodes[1..], i - 1);
      assert nodes[..i][1..] == nodes[1..][..i - 1] && nodes[..i][0] == nodes[0] && nodes[1..][i - 1] == nodes[i];
    }
  }

  /** A document's steps are its nodes'; one without a list of nodes has none. */
  lemma StepsOfDocument(ir: WorkflowIr)
    ensures StepsOf(ir) == if ir.nodes.Some? then StepsOfNodes(ir.nodes.value) else []
  {
  }
}
