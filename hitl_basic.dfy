/** The stand-alone approval demo (streamlit_hitl_basic.py): three session
    fields driven by a query form, two permission buttons and "Start Over",
    the flowchart drawn beside them, and the interaction panel that calls the
    language model once permission is granted. */
module HitlBasic {
  import opened HitlTypes

  /** The states this page can reach: a well-formed step and decision, and a
      query that is set exactly when the session has left step 1. */
  predicate Inv(s: State)
  {
    WellFormed(s) && (s.query == "" <==> s.step == 1)
  }

  /** One run of the page script that handles interaction `ev`. Only the
      widgets of the current step are on screen, so every other interaction
      leaves the state as it is. The form is accepted only with a non-empty
      (untrimmed) query. */
  function Next(s: State, ev: Event): (r: State)
    ensures Inv(s) ==> Inv(r)
    ensures r == s || r.step > s.step || (ev == StartOver && r == Initial)
    ensures ev != StartOver && s.step != 1 ==> r.query == s.query
    ensures r.decision != s.decision ==> (s.step == 2 && r.step == 4) || (ev == StartOver && r == Initial)
    ensures s.step == 1 && ev.Submit? ==> r == (if ev.text != "" then State(2, ev.text, s.decision) else s)
    ensures s.step == 2 && ev == PressYes ==> r == State(4, s.query, Yes)
    ensures s.step == 2 && ev == PressNo ==> r == State(4, s.query, No)
    ensures s.step == 4 && ev == StartOver ==> r == Initial
    ensures (&& !(s.step == 1 && ev.Submit?)
             && !(s.step == 2 && (ev == PressYes || ev == PressNo))
             && !(s.step == 4 && ev == StartOver)) ==> r == s
  {
    if s.step == 1 then
      match ev
      case Submit(q) => if q != "" then State(2, q, s.decision) else s
      case _ => s
    else if s.step == 2 then
      match ev
      case PressYes => State(4, s.query, Yes)
      case PressNo => State(4, s.query, No)
      case _ => s
    else if s.step == 4 then
      match ev
      case StartOver => Initial
      case _ => s
    else
      s
  }

  /** The state after the interactions `evs`, one run each. */
  function Run(s: State, evs: seq<Event>): State
    decreases |evs|
  {
    if evs == [] then s else Run(Next(s, evs[0]), evs[1..])
  }

  lemma {:induction false} RunKeepsInv(s: State, evs: seq<Event>)
    requires Inv(s)
    ensures Inv(Run(s, evs))
    decreases |evs|
  {
    if evs != [] {
      RunKeepsInv(Next(s, evs[0]), evs[1..]);
    }
  }

  ghost predicate Reachable(s: State)
  {
    exists evs :: Run(Initial, evs) == s
  }

  /** Inv describes the reachable states exactly: every state some sequence of
      interactions leads to satisfies it, and each state satisfying it is
      reached by at most two interactions. In particular the step is only
      ever 1, 2 or 4. */
  lemma ReachableIffInv(s: State)
    ensures Reachable(s) <==> Inv(s)
  {
    if Reachable(s) {
      var evs :| Run(Initial, evs) == s;
      RunKeepsInv(Initial, evs);
    }
    if Inv(s) {
      if s.step == 1 {
        assert Run(Initial, []) == s;
      } else if s.step == 2 {
        var evs := [Submit(s.query)];
        assert Run(Initial, evs) == Run(Next(Initial, evs[0]), []);
      } else {
        var answer := if s.decision == Yes then PressYes else PressNo;
        var evs := [Submit(s.query), answer];
        var mid := Next(Initial, evs[0]);
        assert Run(Initial, evs) == Run(mid, [answer]);
        assert Run(mid, [answer]) == Run(Next(mid, answer), []);
      }
    }
  }

  /** The flowchart for a step and decision (lines 60-101). Nodes 1 and 2
      first get their own-step colour and are then overwritten once the step
      has passed them; nodes 3a, 3b and 4 start white. */
  function Flowchart(currentStep: int, decision: Decision): (d: Diagram)
    ensures d.fills.Keys == AllNodes && d.edges == FlowEdges
    ensures Fill(d, N1) == LightBlue <==> currentStep == 1
    ensures Fill(d, N1) == LightGrey <==> currentStep > 1
    ensures Fill(d, N1) == White <==> currentStep < 1
    ensures Fill(d, N2) == LightBlue <==> currentStep == 2
    ensures Fill(d, N2) == LightGrey <==> currentStep > 2
    ensures Fill(d, N2) == White <==> currentStep < 2
    ensures currentStep == 4 && decision == No ==> Fill(d, N3a) == DeniedRed && Fill(d, N4) == White
    ensures currentStep == 4 && decision == Yes ==> Fill(d, N3a) == White && Fill(d, N4) == LightGreen
    ensures Fill(d, N3b) == LightGrey <==> currentStep == 4 && decision == Yes
    ensures Fill(d, N3a) == White <==> !(currentStep == 4 && decision == No)
    ensures Fill(d, N3b) == White <==> !(currentStep == 4 && decision == Yes)
    ensures Fill(d, N4) == White <==> !(currentStep == 4 && decision == Yes)
    ensures currentStep != 4 ==> Fill(d, N3a) == White && Fill(d, N3b) == White && Fill(d, N4) == White
  {
    var c1 := if currentStep == 1 then LightBlue else White;
    var c1' := if currentStep > 1 then LightGrey else c1;
    var c2 := if currentStep == 2 then LightBlue else White;
    var c2' := if currentStep > 2 then LightGrey else c2;
    var c3a := if currentStep == 4 && decision == No then DeniedRed else White;
    var c3b := if currentStep == 4 && decision == Yes then LightGrey else White;
    var c4 := if currentStep == 4 && decision == Yes then LightGreen else White;
    Diagram(map[N1 := c1', N2 := c2', N3a := c3a, N3b := c3b, N4 := c4], FlowEdges)
  }

  /** On every reachable state exactly the nodes of the trail taken so far are
      coloured, and before the answer step the one light-blue node is the
      trail's last. */
  lemma HighlightsFollowTrail(s: State)
    requires Inv(s)
    ensures forall n :: Fill(Flowchart(s.step, s.decision), n) != White <==> n in Trail(s)
    ensures s.step != 4 ==>
              forall n :: Fill(Flowchart(s.step, s.decision), n) == LightBlue <==> n == Trail(s)[|Trail(s)| - 1]
  {
  }

  const ErrorPrefix: string := "Error communicating with OpenAI: "

  /** The text shown as the agent's response: the model's content, or the
      exception's message behind a fixed prefix (lines 151-158). */
  function AnswerText(reply: LlmReply): (content: string)
    ensures reply.Reply? ==> content == reply.content
    ensures reply.Failure? ==>
              && |ErrorPrefix| <= |content|
              && content[..|ErrorPrefix|] == ErrorPrefix
              && content[|ErrorPrefix|..] == reply.message
  {
    match reply
    case Reply(c) => c
    case Failure(m) => ErrorPrefix + m
  }

  /** The interaction panel for a state (lines 113-177). `llm` is the language
      model; it is asked, with the stored query, only when permission has
      been granted, and its result is shown rather than stored. */
  function InteractionPanel(s: State, llm: string -> LlmReply): (p: Panel)
    ensures p.Granted? <==> s.step == 4 && s.decision == Yes
    ensures p.Granted? ==> p.content == AnswerText(llm(s.query))
    ensures s.step == 1 ==> p == QueryForm
    ensures s.step == 2 ==> p == PermissionPrompt(s.query)
    ensures s.step == 4 && s.decision != Yes ==> p == Denied
  {
    if s.step == 1 then QueryForm
    else if s.step == 2 then PermissionPrompt(s.query)
    else if s.step == 4 then
      (if s.decision == Yes then Granted(AnswerText(llm(s.query))) else Denied)
    else Blank
  }

  /** Outside the granted answer step the panel does not depend on the model. */
  lemma ProducerOnlyOnApproval(s: State, llm1: string -> LlmReply, llm2: string -> LlmReply)
    requires !(s.step == 4 && s.decision == Yes)
    ensures InteractionPanel(s, llm1) == InteractionPanel(s, llm2)
  {
  }

  /** The two end-to-end runs of the approval demo: approving a query shows
      the model's answer, denying it shows the refusal. */
  lemma Scenarios()
    ensures Run(Initial, [Submit("buy AAPL"), PressYes]) == State(4, "buy AAPL", Yes)
    ensures InteractionPanel(State(4, "buy AAPL", Yes), q => Reply("Bought 10 AAPL")) == Granted("Bought 10 AAPL")
    ensures Run(Initial, [Submit("buy AAPL"), PressNo]) == State(4, "buy AAPL", No)
    ensures InteractionPanel(State(4, "buy AAPL", No), q => Reply("Bought 10 AAPL")) == Denied
  {
    var s1 := Next(Initial, Submit("buy AAPL"));
    assert Run(Initial, [Submit("buy AAPL"), PressYes]) == Run(s1, [PressYes]);
    assert Run(s1, [PressYes]) == Run(Next(s1, PressYes), []);
    assert Run(Initial, [Submit("buy AAPL"), PressNo]) == Run(s1, [PressNo]);
    assert Run(s1, [PressNo]) == Run(Next(s1, PressNo), []);
  }

  /** The page's session store (`st.session_state.step`, `.query`, `.decision`). */
  class Session {
    var step: int
    var query: string
    var decision: Decision

    function Snapshot(): State
      reads this
    {
      State(step, query, decision)
    }

    /** The first run's initialisation of the three fields (lines 47-52). */
    constructor ()
      ensures Snapshot() == Initial && Inv(Snapshot())
    {
      step := 1;
      query := "";
      decision := Undecided;
    }

    /** `reset_app` (lines 54-57): back to the initial values from any state. */
    method ResetApp()
      modifies this
      ensures Snapshot() == Initial
    {
      step := 1;
      query := "";
      decision := Undecided;
    }

    /** The handlers of the interaction panel for one run (lines 113-177). */
    method Handle(ev: Event)
      modifies this
      ensures Snapshot() == Next(old(Snapshot()), ev)
      ensures Inv(old(Snapshot())) ==> Inv(Snapshot())
    {
      if step == 1 {
        if ev.Submit? && ev.text != "" {
          query := ev.text;
          step := 2;
        }
      } else if step == 2 {
        if ev == PressYes {
          decision := Yes;
          step := 4;
        } else if ev == PressNo {
          decision := No;
          step := 4;
        }
      } else if step == 4 {
        if ev == StartOver {
          ResetApp();
        }
      }
    }
  }
}
