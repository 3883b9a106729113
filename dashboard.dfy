/** The multi-page dashboard (app.py): the page router over `current_view`,
    demo 1 (the approval demo with its own `d1_` session fields and
    flowchart), and the gate on demo 3's chat that the agent runtime's
    interrupt controls. */
module Dashboard {
  import opened HitlTypes

  // ---------------------------------------------------------------------------
  // Demo 1
  // ---------------------------------------------------------------------------

  /** The demo-1 states this page can reach: a well-formed step and decision,
      and an empty query while at step 1. Since the form accepts any text,
      an empty query can reach steps 2 and 4. */
  predicate Inv(s: State)
  {
    WellFormed(s) && (s.step == 1 ==> s.query == "")
  }

  /** One run of `render_demo1` that handles interaction `ev`. Only the widgets
      of the current step are on screen, so every other interaction leaves
      the state as it is. The form stores whatever text was entered. */
  function Next(s: State, ev: Event): (r: State)
    ensures Inv(s) ==> Inv(r)
    ensures r == s || r.step > s.step || (ev == StartOver && r == Initial)
    ensures ev != StartOver && s.step != 1 ==> r.query == s.query
    ensures r.decision != s.decision ==> (s.step == 2 && r.step == 4) || (ev == StartOver && r == Initial)
    ensures s.step == 1 && ev.Submit? ==> r == State(2, ev.text, s.decision)
    ensures s.step == 2 && ev == PressYes ==> r == State(4, s.query, Yes)
    ensures s.step == 2 && ev == PressNo ==> r == State(4, s.query, No)
    ensures s.step == 4 && ev == StartOver ==> r == Initial
    ensures (&& !(s.step == 1 && ev.Submit?)
             && !(s.step == 2 && (ev == PressYes || ev == PressNo))
             && !(s.step == 4 && ev == StartOver)) ==> r == s
  {
    if s.step == 1 then
      match ev
      case Submit(q) => State(2, q, s.decision)
      case _ => s
    else if s.step == 2 then
      match ev
      case PressYes => State(4, s.query, Yes)
      case PressNo => State(4, s.query, No)
      case _ => s
    else if s.step == 4 then
      match ev
      case StartOver => Initial
      case _ => s
    else
      s
  }

  /** The demo-1 state after the interactions `evs`, one run each. */
  function Run(s: State, evs: seq<Event>): State
    decreases |evs|
  {
    if evs == [] then s else Run(Next(s, evs[0]), evs[1..])
  }

  lemma {:induction false} RunKeepsInv(s: State, evs: seq<Event>)
    requires Inv(s)
    ensures Inv(Run(s, evs))
    decreases |evs|
  {
    if evs != [] {
      RunKeepsInv(Next(s, evs[0]), evs[1..]);
    }
  }

  ghost predicate Reachable(s: State)
  {
    exists evs :: Run(Initial, evs) == s
  }

  /** Inv describes the reachable demo-1 states exactly; in particular step 3
      is never entered, and an empty query reaches the permission step. */
  lemma ReachableIffInv(s: State)
    ensures Reachable(s) <==> Inv(s)
  {
    if Reachable(s) {
      var evs :| Run(Initial, evs) == s;
      RunKeepsInv(Initial, evs);
    }
    if Inv(s) {
      if s.step == 1 {
        assert Run(Initial, []) == s;
      } else if s.step == 2 {
        var evs := [Submit(s.query)];
        assert Run(Initial, evs) == Run(Next(Initial, evs[0]), []);
      } else {
        var answer := if s.decision == Yes then PressYes else PressNo;
        var evs := [Submit(s.query), answer];
        var mid := Next(Initial, evs[0]);
        assert Run(Initial, evs) == Run(mid, [answer]);
        assert Run(mid, [answer]) == Run(Next(mid, answer), []);
      }
    }
  }

  /** The inner `get_flowchart` of `render_demo1` (lines 140-164), one
      conditional expression per node. */
  function Flowchart(currentStep: int, decision: Decision): (d: Diagram)
    ensures d.fills.Keys == AllNodes && d.edges == FlowEdges
    ensures Fill(d, N1) == LightBlue <==> currentStep == 1
    ensures Fill(d, N1) == LightGrey <==> currentStep > 1
    ensures Fill(d, N1) == White <==> currentStep < 1
    ensures Fill(d, N2) == LightBlue <==> currentStep == 2
    ensures Fill(d, N2) == LightGrey <==> currentStep > 2
    ensures Fill(d, N2) == White <==> currentStep < 2
    ensures Fill(d, N3a) == DeniedRed <==> currentStep == 4 && decision == No
    ensures Fill(d, N3a) == White <==> !(currentStep == 4 && decision == No)
    ensures Fill(d, N3b) == LightGrey <==> currentStep == 4 && decision == Yes
    ensures Fill(d, N3b) == White <==> !(currentStep == 4 && decision == Yes)
    ensures Fill(d, N4) == LightGreen <==> currentStep == 4 && decision == Yes
    ensures Fill(d, N4) == White <==> !(currentStep == 4 && decision == Yes)
  {
    var c1 := if currentStep == 1 then LightBlue else if currentStep > 1 then LightGrey else White;
    var c2 := if currentStep == 2 then LightBlue else if currentStep > 2 then LightGrey else White;
    var c3a := if currentStep == 4 && decision == No then DeniedRed else White;
    var c3b := if currentStep == 4 && decision == Yes then LightGrey else White;
    var c4 := if currentStep == 4 && decision == Yes then LightGreen else White;
    Diagram(map[N1 := c1, N2 := c2, N3a := c3a, N3b := c3b, N4 := c4], FlowEdges)
  }

  /** On every reachable demo-1 state exactly the nodes of the trail taken so
      far are coloured, and before the answer step the one light-blue node is
      the trail's last. */
  lemma HighlightsFollowTrail(s: State)
    requires Inv(s)
    ensures forall n :: Fill(Flowchart(s.step, s.decision), n) != White <==> n in Trail(s)
    ensures s.step != 4 ==>
              forall n :: Fill(Flowchart(s.step, s.decision), n) == LightBlue <==> n == Trail(s)[|Trail(s)| - 1]
  {
  }

  const ErrorPrefix: string := "Error: "

  /** The text written as the bot response: the model's content, or the
      exception's message behind a fixed prefix (lines 197-202). */
  function AnswerText(reply: LlmReply): (content: string)
    ensures reply.Reply? ==> content == reply.content
    ensures reply.Failure? ==>
              && |ErrorPrefix| <= |content|
              && content[..|ErrorPrefix|] == ErrorPrefix
              && content[|ErrorPrefix|..] == reply.message
  {
    match reply
    case Reply(c) => c
    case Failure(m) => ErrorPrefix + m
  }

  /** The demo-1 interaction panel for a state (lines 170-209). `llm` is the
      language model; it is asked, with the stored query, only when
      permission has been granted, and its result is shown rather than
      stored. */
  function InteractionPanel(s: State, llm: string -> LlmReply): (p: Panel)
    ensures p.Granted? <==> s.step == 4 && s.decision == Yes
    ensures p.Granted? ==> p.content == AnswerText(llm(s.query))
    ensures s.step == 1 ==> p == QueryForm
    ensures s.step == 2 ==> p == PermissionPrompt(s.query)
    ensures s.step == 4 && s.decision != Yes ==> p == Denied
  {
    if s.step == 1 then QueryForm
    else if s.step == 2 then PermissionPrompt(s.query)
    else if s.step == 4 then
      (if s.decision == Yes then Granted(AnswerText(llm(s.query))) else Denied)
    else Blank
  }

  /** Outside the granted answer step the panel does not depend on the model. */
  lemma ProducerOnlyOnApproval(s: State, llm1: string -> LlmReply, llm2: string -> LlmReply)
    requires !(s.step == 4 && s.decision == Yes)
    ensures InteractionPanel(s, llm1) == InteractionPanel(s, llm2)
  {
  }

  // ---------------------------------------------------------------------------
  // The router
  // ---------------------------------------------------------------------------

  /** The four values `navigate_to` is called with. */
  const Views: set<string> := {"home", "demo1", "demo2", "demo3"}

  /** The page-rendering functions of the dashboard. */
  datatype Page = RenderHome | RenderDemo1 | RenderDemo2 | RenderDemo3 | RenderDemo3Fixed

  /** The view under which the router renders a page; `render_demo3` is
      never rendered. */
  function ViewOf(p: Page): Option<string>
  {
    match p
    case RenderHome => Some("home")
    case RenderDemo1 => Some("demo1")
    case RenderDemo2 => Some("demo2")
    case RenderDemo3 => None
    case RenderDemo3Fixed => Some("demo3")
  }

  /** The page the router renders for `current_view` (lines 448-455): exactly
      one page for each of the four views, demo 3 with `render_demo3_fixed`,
      and nothing for any other value. */
  function Route(view: string): (p: Option<Page>)
    ensures p.Some? <==> view in Views
    ensures p.Some? ==> ViewOf(p.value) == Some(view)
    ensures view == "demo3" ==> p == Some(RenderDemo3Fixed)
  {
    if view == "home" then Some(RenderHome)
    else if view == "demo1" then Some(RenderDemo1)
    else if view == "demo2" then Some(RenderDemo2)
    else if view == "demo3" then Some(RenderDemo3Fixed)
    else None
  }

  /** Every page the router can show is shown for its own view, and for no other. */
  lemma RouteInvertsViewOf(p: Page, view: string)
    requires ViewOf(p).Some?
    ensures Route(view) == Some(p) <==> view == ViewOf(p).value
  {
  }

  // ---------------------------------------------------------------------------
  // Demo 3: the interrupt gate
  // ---------------------------------------------------------------------------

  datatype Interrupt = Interrupt(value: string)

  datatype PendingTask = PendingTask(interrupts: seq<Interrupt>)

  /** The parts of the agent runtime's state snapshot that `render_demo3_fixed`
      inspects: the nodes still to run and the pending tasks. */
  datatype GraphSnapshot = GraphSnapshot(next: seq<string>, tasks: seq<PendingTask>)

  /** The `is_interrupted` flag (lines 409-413): false unless there is a next
      node and the first pending task carries an interrupt. */
  function IsInterrupted(g: GraphSnapshot): bool
  {
    if |g.next| > 0 then |g.tasks| > 0 && |g.tasks[0].interrupts| > 0 else false
  }

  /** The approval request shown while interrupted: the first interrupt's value (line 414). */
  function ApprovalRequest(g: GraphSnapshot): (request: Option<string>)
    ensures request.Some? <==> IsInterrupted(g)
    ensures request.Some? ==> request.value == g.tasks[0].interrupts[0].value
  {
    if IsInterrupted(g) then Some(g.tasks[0].interrupts[0].value) else None
  }

  /** An interaction on the demo-3 page: a permission button or a chat prompt. */
  datatype Demo3Input = Approve | Reject | ChatPrompt(text: string)

  /** What the page sends to the agent runtime: a resume command with the
      decision, or a new user message. */
  datatype RuntimeCall = Resume(answer: string) | Invoke(prompt: string)

  /** What one interaction on the demo-3 page sends to the agent runtime
      (lines 409-442). The permission buttons exist only while interrupted
      and the chat input only while not; an empty prompt is falsy and sends
      nothing. */
  function Demo3Call(g: GraphSnapshot, input: Demo3Input): (call: Option<RuntimeCall>)
    ensures IsInterrupted(g) ==> (call.Some? <==> !input.ChatPrompt?)
    ensures !IsInterrupted(g) ==> (call.Some? <==> input.ChatPrompt? && input.text != "")
    ensures call.Some? && call.value.Resume? ==>
              IsInterrupted(g) && call.value.answer == (if input == Approve then "yes" else "no")
    ensures call.Some? && call.value.Invoke? ==> !IsInterrupted(g) && input == ChatPrompt(call.value.prompt)
  {
    if IsInterrupted(g) then
      match input
      case Approve => Some(Resume("yes"))
      case Reject => Some(Resume("no"))
      case ChatPrompt(_) => None
    else
      match input
      case ChatPrompt(p) => if p != "" then Some(Invoke(p)) else None
      case _ => None
  }

  /** The approval request on screen and the input the page passes on go
      together: while a request is shown (lines 414-416) only the two
      permission buttons reach the runtime, and while none is shown only a
      non-empty chat prompt does (lines 418-442). */
  lemma RequestGatesInput(g: GraphSnapshot, p: string)
    ensures ApprovalRequest(g).Some? <==> Demo3Call(g, Approve) == Some(Resume("yes"))
    ensures ApprovalRequest(g).Some? <==> Demo3Call(g, Reject) == Some(Resume("no"))
    ensures ApprovalRequest(g).Some? ==> Demo3Call(g, ChatPrompt(p)) == None
    ensures ApprovalRequest(g).None? && p != "" ==> Demo3Call(g, ChatPrompt(p)) == Some(Invoke(p))
  {
  }

  // ---------------------------------------------------------------------------
  // The session store
  // ---------------------------------------------------------------------------

  /** The dashboard's session store: `current_view` and demo 1's `d1_step`,
      `d1_query` and `d1_decision`. */
  class Session {
    var currentView: string
    var d1Step: int
    var d1Query: string
    var d1Decision: Decision

    function Demo1(): State
      reads this
    {
      State(d1Step, d1Query, d1Decision)
    }

    /** A new session opens on the home view (lines 70-71); demo 1's fields
        start at their initial values (lines 127-132). */
    constructor ()
      ensures currentView == "home" && Demo1() == Initial && Inv(Demo1())
      ensures currentView in Views && Route(currentView).Some?
    {
      currentView := "home";
      d1Step := 1;
      d1Query := "";
      d1Decision := Undecided;
    }

    /** `navigate_to` (lines 74-76): switches the view and nothing else. Every
        caller (lines 96, 106, 116, 123, 220, 280 and 387) passes one of the
        four views, so the router always has a page to render afterwards. */
    method NavigateTo(viewName: string)
      requires viewName in Views
      modifies this
      ensures currentView == viewName && Demo1() == old(Demo1())
      ensures currentView in Views && Route(currentView).Some?
    {
      currentView := viewName;
    }

    /** `reset_d1` (lines 134-137): demo 1 back to its initial values from any
        state; the view stays. */
    method ResetD1()
      modifies this
      ensures Demo1() == Initial && currentView == old(currentView)
    {
      d1Step := 1;
      d1Query := "";
      d1Decision := Undecided;
    }

    /** The handlers of demo 1's interaction panel for one run (lines 170-209);
        they are on screen only while the router shows demo 1. */
    method HandleDemo1(ev: Event)
      requires currentView == "demo1"
      modifies this
      ensures Demo1() == Next(old(Demo1()), ev) && currentView == old(currentView)
      ensures Inv(old(Demo1())) ==> Inv(Demo1())
    {
      if d1Step == 1 {
        if ev.Submit? {
          d1Query := ev.text;
          d1Step := 2;
        }
      } else if d1Step == 2 {
        if ev == PressYes {
          d1Decision := Yes;
          d1Step := 4;
        } else if ev == PressNo {
          d1Decision := No;
          d1Step := 4;
        }
      } else if d1Step == 4 {
        if ev == StartOver {
          ResetD1();
        }
      }
    }
  }
}
