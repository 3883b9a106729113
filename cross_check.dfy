/** How the dashboard's demo 1 (app.py) and the stand-alone demo
    (streamlit_hitl_basic.py) relate: the same flowchart, the same state
    machine except for the empty query, and different error texts. */
module CrossCheck {
  import opened HitlTypes
  import Dashboard
  import HitlBasic

  /** The ternary form and the reassignment form colour every node alike, for
      every step and decision, and draw the same edges. */
  lemma FlowchartsAgree(currentStep: int, decision: Decision)
    ensures Dashboard.Flowchart(currentStep, decision) == HitlBasic.Flowchart(currentStep, decision)
  {
    var a := Dashboard.Flowchart(currentStep, decision);
    var b := HitlBasic.Flowchart(currentStep, decision);
    forall n | n in AllNodes
      ensures a.fills[n] == b.fills[n]
    {
      assert Fill(a, n) == a.fills[n] && Fill(b, n) == b.fills[n];
    }
  }

  /** One run agrees in the two copies unless it submits an empty query. */
  lemma NextAgrees(s: State, ev: Event)
    requires ev != Submit("")
    ensures Dashboard.Next(s, ev) == HitlBasic.Next(s, ev)
  {
  }

  /** Submitting an empty query moves demo 1 to the permission step but
      leaves the stand-alone demo where it was. */
  lemma EmptyQueryDiverges()
    ensures Dashboard.Next(Initial, Submit("")) == State(2, "", Undecided)
    ensures HitlBasic.Next(Initial, Submit("")) == Initial
  {
  }

  /** Any sequence of interactions without an empty submission leads the two
      copies to the same state. */
  lemma {:induction false} RunsAgree(s: State, evs: seq<Event>)
    requires forall i :: 0 <= i < |evs| ==> evs[i] != Submit("")
    ensures Dashboard.Run(s, evs) == HitlBasic.Run(s, evs)
    decreases |evs|
  {
    if evs != [] {
      NextAgrees(s, evs[0]);
      RunsAgree(Dashboard.Next(s, evs[0]), evs[1..]);
    }
  }

  /** The two copies show the model's content alike and its failures with
      different prefixes. */
  lemma AnswerTextsAgreeIffReply(reply: LlmReply)
    ensures Dashboard.AnswerText(reply) == HitlBasic.AnswerText(reply) <==> reply.Reply?
  {
    if reply.Failure? {
      var a := Dashboard.AnswerText(reply);
      var b := HitlBasic.AnswerText(reply);
      assert a[5] == ':' && b[5] == ' ';
    }
  }
}
