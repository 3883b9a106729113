/** Vocabulary shared by the two copies of the approval demo: the three
    session fields, the widget interactions that change them, the flowchart
    the page draws beside them, and the abstract language-model producer. */
module HitlTypes {

  datatype Option<T> = None | Some(value: T)

  /** The recorded answer to the permission prompt: Python's None, 'yes' or 'no'. */
  datatype Decision = Undecided | Yes | No

  /** The three session fields of one approval demo (`step`, `query`,
      `decision`; `d1_step`, `d1_query`, `d1_decision` in the dashboard). */
  datatype State = State(step: int, query: string, decision: Decision)

  /** What the session holds before any interaction: step 1 (input), no query, no decision. */
  const Initial: State := State(1, "", Undecided)

  /** One widget interaction during a run of the page script: submitting the
      query form with its text, one of the two permission buttons, or
      "Start Over". A run without an interaction changes nothing. */
  datatype Event = Submit(text: string) | PressYes | PressNo | StartOver

  /** The steps the code ever assigns (1 input, 2 permission, 4 answer), and
      a decision recorded exactly at the answer step. */
  predicate WellFormed(s: State)
  {
    && (s.step == 1 || s.step == 2 || s.step == 4)
    && (s.decision == Undecided <==> s.step != 4)
  }

  /** The fill colours the flowchart uses, with their Graphviz names. */
  datatype Colour = White | LightBlue | LightGrey | LightGreen | DeniedRed
  {
    function Name(): string
    {
      match this
      case White => "white"
      case LightBlue => "lightblue"
      case LightGrey => "lightgrey"
      case LightGreen => "lightgreen"
      case DeniedRed => "#ffcccc"
    }
  }

  /** The five flowchart nodes, with their Graphviz identifiers. */
  datatype NodeId = N1 | N2 | N3a | N3b | N4
  {
    function Name(): string
    {
      match this
      case N1 => "1"
      case N2 => "2"
      case N3a => "3a"
      case N3b => "3b"
      case N4 => "4"
    }
  }

  const AllNodes: set<NodeId> := {N1, N2, N3a, N3b, N4}

  /** The Graphviz names identify the nodes and the colours: no two nodes
      share an identifier, so none is merged with another when drawn, and no
      two colours share a name, so differently coloured nodes look different. */
  lemma NamesIdentify(a: NodeId, b: NodeId, x: Colour, y: Colour)
    ensures a.Name() == b.Name() ==> a == b
    ensures x.Name() == y.Name() ==> x == y
  {
  }

  /** A directed edge; `text` is None for an edge drawn without a label. */
  datatype Edge = Edge(src: NodeId, dst: NodeId, text: Option<string>)

  /** The edges both copies draw, in the order they add them. */
  const FlowEdges: seq<Edge> := [
    Edge(N1, N2, None),
    Edge(N2, N3a, Some(" No")),
    Edge(N2, N3b, Some(" Yes")),
    Edge(N3b, N4, None)
  ]

  /** What the flowchart function hands to Graphviz: a fill colour per node and the edges. */
  datatype Diagram = Diagram(fills: map<NodeId, Colour>, edges: seq<Edge>)

  /** The colour a diagram gives a node; a node it does not list keeps the default fill, white. */
  function Fill(d: Diagram, n: NodeId): Colour
  {
    if n in d.fills then d.fills[n] else White
  }

  /** The answer of the external language model to a prompt: its content, or
      the text of the exception it raised. */
  datatype LlmReply = Reply(content: string) | Failure(message: string)

  /** What the interaction panel shows: the query form (step 1), the
      permission prompt echoing the query (step 2), the model's answer or the
      refusal (step 4), or nothing for any other step. */
  datatype Panel = QueryForm | PermissionPrompt(query: string) | Granted(content: string) | Denied | Blank

  /** The way through the flowchart a session has taken so far. */
  function Trail(s: State): (t: seq<NodeId>)
    requires WellFormed(s)
    ensures |t| > 0 && t[0] == N1
  {
    if s.step == 1 then [N1]
    else if s.step == 2 then [N1, N2]
    else if s.decision == Yes then [N1, N2, N3b, N4]
    else [N1, N2, N3a]
  }

  /** `t` walks along `edges`: each node is joined to the next by one of them. */
  ghost predicate IsWalk(t: seq<NodeId>, edges: seq<Edge>)
  {
    forall i :: 0 <= i < |t| - 1 ==>
      exists k :: 0 <= k < |edges| && edges[k].src == t[i] && edges[k].dst == t[i + 1]
  }

  /** The trail of every well-formed state is a walk through the drawn edges
      from node 1, and at the answer step it leaves node 2 by the edge whose
      label is the decision taken. */
  lemma TrailIsWalk(s: State)
    requires WellFormed(s)
    ensures IsWalk(Trail(s), FlowEdges)
    ensures s.step == 4 ==>
              && |Trail(s)| >= 3 && Trail(s)[1] == N2
              && exists k :: 0 <= k < |FlowEdges| && FlowEdges[k].src == N2 && FlowEdges[k].dst == Trail(s)[2] &&
                   FlowEdges[k].text == Some(if s.decision == Yes then " Yes" else " No")
  {
    var t := Trail(s);
    forall i | 0 <= i < |t| - 1
      ensures exists k :: 0 <= k < |FlowEdges| && FlowEdges[k].src == t[i] && FlowEdges[k].dst == t[i + 1]
    {
      if i == 0 {
        assert FlowEdges[0].src == t[i] && FlowEdges[0].dst == t[i + 1];
      } else if i == 1 {
        var k := if t[2] == N3a then 1 else 2;
        assert FlowEdges[k].src == t[i] && FlowEdges[k].dst == t[i + 1];
      } else {
        assert FlowEdges[3].src == t[i] && FlowEdges[3].dst == t[i + 1];
      }
    }
    if s.step == 4 {
      var k := if s.decision == Yes then 2 else 1;
      assert FlowEdges[k].src == N2 && FlowEdges[k].dst == t[2];
    }
  }
}
